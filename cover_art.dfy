/**
 * The cover-art lookup of TrackInfo, as a specification: the ordered list of
 * candidate files, and the first of them that exists.
 */
module CoverArt {
  import opened BansheeTypes

  /**
   * What the lookup needs from the world outside TrackInfo:
   *  - existing: the paths for which File.Exists answers true;
   *  - artistAlbumId: AlbumInfo.CreateArtistAlbumId(artist, album, false);
   *  - coverArtPath: Paths.GetCoverArtPath(id, extension);
   *  - directoryName: Path.GetDirectoryName, which may answer null;
   *  - directorySeparator: Path.DirectorySeparatorChar.
   */
  datatype Host = Host(
    existing: set<string>,
    artistAlbumId: (Nullable<string>, Nullable<string>) -> string,
    coverArtPath: (string, string) -> string,
    directoryName: string -> Nullable<string>,
    directorySeparator: char)

  /**
   * The outcome of the CoverArtFileName getter: a path, null, or the
   * NullReferenceException raised by reading the path of a null Uri.
   */
  datatype CoverLookup = Found(path: string) | NotFound | NullUriFault

  /** The file names tried in the track's folder, in order. */
  const CoverNames: seq<string> := ["cover", "Cover", "folder", "Folder"]

  /** The extensions tried, in order, in the store and in the folder. */
  const CoverExtensions: seq<string> := ["jpg", "png", "jpeg", "gif"]

  /**
   * The index of the first path in `paths` that exists, or |paths| when
   * none does.
   */
  function FirstIndex(paths: seq<string>, existing: set<string>): (k: nat)
    ensures k <= |paths|
    ensures forall i :: 0 <= i < k ==> paths[i] !in existing
    ensures k < |paths| ==> paths[k] in existing
  {
    if paths == [] then 0
    else if paths[0] in existing then 0
    else 1 + FirstIndex(paths[1..], existing)
  }

  /** The first existing path of a list of candidates is determined by where the list splits. */
  lemma {:induction false} FirstIndexAppend(a: seq<string>, b: seq<string>, existing: set<string>)
    ensures FirstIndex(a + b, existing) ==
      if FirstIndex(a, existing) < |a| then FirstIndex(a, existing)
      else |a| + FirstIndex(b, existing)
  {
    if a == [] {
      assert a + b == b;
    } else if a[0] !in existing {
      assert (a + b)[1..] == a[1..] + b;
      FirstIndexAppend(a[1..], b, existing);
    }
  }

  /** The paths in the shared cover-art store for one artist/album id, one per extension. */
  function StorePaths(host: Host, id: string): (r: seq<string>)
    ensures |r| == |CoverExtensions|
  {
    seq(|CoverExtensions|, e requires 0 <= e < |CoverExtensions| =>
      host.coverArtPath(id, "." + CoverExtensions[e]))
  }

  /** The folder of a track, with a trailing separator; a null folder name concatenates as "". */
  function BasePath(host: Host, absolutePath: string): (r: string)
    ensures |r| > 0 && r[|r| - 1] == host.directorySeparator
  {
    var dir := match host.directoryName(absolutePath)
      case Null => ""
      case NonNull(d) => d;
    dir + [host.directorySeparator]
  }

  /** One candidate in the track's folder. */
  function FolderPath(basePath: string, name: string, ext: string): string {
    basePath + name + "." + ext
  }

  /** Every name paired with every extension, name-major. */
  function FolderPaths(basePath: string, names: seq<string>, exts: seq<string>): (r: seq<string>)
    ensures |r| == |names| * |exts|
  {
    if names == [] then []
    else
      var rest := FolderPaths(basePath, names[1..], exts);
      assert |names| * |exts| == |exts| + (|names| - 1) * |exts|;
      seq(|exts|, j requires 0 <= j < |exts| => FolderPath(basePath, names[0], exts[j])) + rest
  }

  /** Candidate i * |exts| + j of the folder is name i with extension j. */
  lemma {:induction false} FolderPathAt(basePath: string, names: seq<string>, exts: seq<string>, i: nat, j: nat)
    requires i < |names| && j < |exts|
    ensures i * |exts| + j < |FolderPaths(basePath, names, exts)|
    ensures FolderPaths(basePath, names, exts)[i * |exts| + j] == FolderPath(basePath, names[i], exts[j])
  {
    var m := |exts|;
    assert |names| * m == m + (|names| - 1) * m;
    if i > 0 {
      FolderPathAt(basePath, names[1..], exts, i - 1, j);
      assert i * m + j == m + ((i - 1) * m + j);
    }
  }

  /** The folder candidates of a track, in the order the getter tries them. */
  function TrackFolderPaths(host: Host, uri: SafeUri): (r: seq<string>)
    ensures |r| == |CoverNames| * |CoverExtensions|
  {
    FolderPaths(BasePath(host, uri.absolutePath), CoverNames, CoverExtensions)
  }

  /**
   * The search the getter performs when nothing is cached: the store first;
   * then, if the track has a Uri, its folder.
   */
  function SearchCover(host: Host, artist: Nullable<string>, album: Nullable<string>, uri: Nullable<SafeUri>): (r: CoverLookup)
    ensures r.Found? ==> r.path in host.existing
    ensures r.NullUriFault? <==>
      uri.Null? && forall e :: 0 <= e < |CoverExtensions| ==>
        StorePaths(host, host.artistAlbumId(artist, album))[e] !in host.existing
    ensures r.NotFound? ==>
      uri.NonNull? &&
      (forall e :: 0 <= e < |CoverExtensions| ==>
        StorePaths(host, host.artistAlbumId(artist, album))[e] !in host.existing) &&
      (forall t :: 0 <= t < |CoverNames| * |CoverExtensions| ==>
        TrackFolderPaths(host, uri.value)[t] !in host.existing)
  {
    var store := StorePaths(host, host.artistAlbumId(artist, album));
    var k := FirstIndex(store, host.existing);
    if k < |store| then Found(store[k])
    else if uri.Null? then NullUriFault
    else
      var folder := TrackFolderPaths(host, uri.value);
      var j := FirstIndex(folder, host.existing);
      if j < |folder| then Found(folder[j]) else NotFound
  }

  /** All twenty candidates of a track with a Uri, in order. */
  function Candidates(host: Host, artist: Nullable<string>, album: Nullable<string>, uri: SafeUri): (r: seq<string>)
    ensures |r| == 20
  {
    StorePaths(host, host.artistAlbumId(artist, album)) + TrackFolderPaths(host, uri)
  }

  /**
   * For a track with a Uri, the search is a plain first-match over the
   * twenty candidates: the result is the first existing one, or null.
   */
  lemma SearchIsFirstMatch(host: Host, artist: Nullable<string>, album: Nullable<string>, uri: SafeUri)
    ensures var c := Candidates(host, artist, album, uri);
            var k := FirstIndex(c, host.existing);
            SearchCover(host, artist, album, NonNull(uri)) == if k < |c| then Found(c[k]) else NotFound
  {
    var store := StorePaths(host, host.artistAlbumId(artist, album));
    var folder := TrackFolderPaths(host, uri);
    FirstIndexAppend(store, folder, host.existing);
  }

  /** A path found by the search exists, and every candidate tried before it does not. */
  lemma SearchFindsFirstExisting(host: Host, artist: Nullable<string>, album: Nullable<string>, uri: SafeUri, p: string)
    requires SearchCover(host, artist, album, NonNull(uri)) == Found(p)
    ensures p in host.existing
    ensures exists k :: 0 <= k < 20 && Candidates(host, artist, album, uri)[k] == p &&
                        (forall i :: 0 <= i < k ==> Candidates(host, artist, album, uri)[i] !in host.existing)
  {
    SearchIsFirstMatch(host, artist, album, uri);
  }

  /** The search answers null exactly when none of the twenty candidates exists. */
  lemma SearchNotFound(host: Host, artist: Nullable<string>, album: Nullable<string>, uri: SafeUri)
    ensures SearchCover(host, artist, album, NonNull(uri)) == NotFound <==>
      forall i :: 0 <= i < 20 ==> Candidates(host, artist, album, uri)[i] !in host.existing
  {
    SearchIsFirstMatch(host, artist, album, uri);
  }

  /**
   * The store wins: when a store path exists, the result is the first such
   * path whatever the track's folder holds and whether or not it has a Uri;
   * a null Uri faults exactly when no store path exists.
   */
  lemma StoreFirst(host: Host, artist: Nullable<string>, album: Nullable<string>, uri: Nullable<SafeUri>)
    ensures var store := StorePaths(host, host.artistAlbumId(artist, album));
            (exists e :: 0 <= e < |store| && store[e] in host.existing) ==>
              SearchCover(host, artist, album, uri) == Found(store[FirstIndex(store, host.existing)])
    ensures uri.Null? ==>
      (SearchCover(host, artist, album, uri) == NullUriFault <==>
       forall e :: 0 <= e < |CoverExtensions| ==>
         host.coverArtPath(host.artistAlbumId(artist, album), "." + CoverExtensions[e]) !in host.existing)
  {
    var store := StorePaths(host, host.artistAlbumId(artist, album));
    forall e | 0 <= e < |CoverExtensions|
      ensures store[e] == host.coverArtPath(host.artistAlbumId(artist, album), "." + CoverExtensions[e])
    {
    }
  }

  /** Folder candidate 4 * n + e of a track is its folder, the separator, name n, a dot and extension e. */
  lemma TrackFolderPathAt(host: Host, uri: SafeUri, n: nat, e: nat)
    requires n < |CoverNames| && e < |CoverExtensions|
    ensures var dir := host.directoryName(uri.absolutePath);
            TrackFolderPaths(host, uri)[4 * n + e] ==
              (if dir.Null? then "" else dir.value) + [host.directorySeparator] + CoverNames[n] + "." + CoverExtensions[e]
  {
    FolderPathAt(BasePath(host, uri.absolutePath), CoverNames, CoverExtensions, n, e);
  }

  /** Candidate e of the twenty, for e < 4, is the store path with extension e. */
  lemma CandidateStoreAt(host: Host, artist: Nullable<string>, album: Nullable<string>, uri: SafeUri, e: nat)
    requires e < |CoverExtensions|
    ensures Candidates(host, artist, album, uri)[e] ==
      host.coverArtPath(host.artistAlbumId(artist, album), "." + CoverExtensions[e])
  {
    var store := StorePaths(host, host.artistAlbumId(artist, album));
    assert Candidates(host, artist, album, uri)[e] == store[e];
  }

  /** Candidate 4 + 4 * n + e of the twenty is name n with extension e in the track's folder. */
  lemma CandidateFolderAt(host: Host, artist: Nullable<string>, album: Nullable<string>, uri: SafeUri, n: nat, e: nat)
    requires n < |CoverNames| && e < |CoverExtensions|
    ensures var dir := host.directoryName(uri.absolutePath);
            Candidates(host, artist, album, uri)[4 + 4 * n + e] ==
              (if dir.Null? then "" else dir.value) + [host.directorySeparator] + CoverNames[n] + "." + CoverExtensions[e]
  {
    TrackFolderPathAt(host, uri, n, e);
    var store := StorePaths(host, host.artistAlbumId(artist, album));
    assert Candidates(host, artist, album, uri)[4 + 4 * n + e] == TrackFolderPaths(host, uri)[4 * n + e];
  }
}
