/**
 * The track-metadata record of the media library: a bag of properties with
 * display fallbacks, two attribute-flag tests, a memoised cover-art lookup
 * and an export to a key/value map.
 */
module Collection {
  import opened BansheeTypes
  import opened CoverArt

  /** The placeholders shown for a missing artist, album or title. */
  const UnknownArtist: string := "Unknown Artist"
  const UnknownAlbum: string := "Unknown Album"
  const UnknownTitle: string := "Unknown Title"

  /** Every field of a TrackInfo, as one value. */
  datatype TrackState = TrackState(
    uri: Nullable<SafeUri>,
    moreInfoUri: Nullable<SafeUri>,
    mimeType: Nullable<string>,
    artistName: Nullable<string>,
    albumTitle: Nullable<string>,
    trackTitle: Nullable<string>,
    genre: Nullable<string>,
    trackNumber: int32,
    trackCount: int32,
    year: int32,
    rating: int32,
    duration: TimeSpan,
    dateAdded: DateTime,
    playCount: int32,
    skipCount: int32,
    lastPlayed: DateTime,
    attributes: TrackAttributes,
    playbackError: StreamPlaybackError,
    coverArtFile: Nullable<string>)

  /** The state of a newly constructed TrackInfo: .NET defaults, PlaybackError None. */
  const FreshState: TrackState := TrackState(
    Null, Null, Null, Null, Null, Null, Null,
    0, 0, 0, 0, TimeSpan(0), DateTime(0), 0, 0, DateTime(0),
    0, StreamPlaybackError.None, Null)

  /** A stored string, or the placeholder when it is null or empty. */
  function DisplayOr(value: Nullable<string>, placeholder: string): string {
    if IsNullOrEmpty(value) then placeholder else value.value
  }

  /** A value of the exported map. */
  datatype ExportValue =
    | Text(text: Nullable<string>)
    | Number(number: int32)
    | Seconds(duration: TimeSpan)  // Duration.TotalSeconds, a double

  /** The nine keys of the exported map. */
  const ExportKeys: set<string> :=
    {"URI", "length", "name", "artist", "album", "track-number", "track-count", "year", "rating"}

  /** The text exported under "URI": empty for a null Uri, the absolute URI otherwise. */
  function UriText(uri: Nullable<SafeUri>): string {
    if uri.Null? then "" else uri.value.absoluteUri
  }

  /** The map GenerateExportable builds from a track's fields. */
  function Exportable(s: TrackState): (r: map<string, ExportValue>)
    ensures r.Keys == ExportKeys
  {
    map[
      "URI" := Text(NonNull(UriText(s.uri))),
      "length" := Seconds(s.duration),
      "name" := Text(s.trackTitle),
      "artist" := Text(s.artistName),
      "album" := Text(s.albumTitle),
      "track-number" := Number(s.trackNumber),
      "track-count" := Number(s.trackCount),
      "year" := Number(s.year),
      "rating" := Number(s.rating)]
  }

  /** The export has exactly the nine keys, each mirroring its field. */
  lemma ExportMirrorsFields(s: TrackState)
    ensures Exportable(s).Keys == ExportKeys && |Exportable(s)| == 9
    ensures Exportable(s)["URI"] == Text(NonNull(UriText(s.uri)))
    ensures Exportable(s)["length"] == Seconds(s.duration)
    ensures Exportable(s)["name"] == Text(s.trackTitle)
    ensures Exportable(s)["artist"] == Text(s.artistName)
    ensures Exportable(s)["album"] == Text(s.albumTitle)
    ensures Exportable(s)["track-number"] == Number(s.trackNumber)
    ensures Exportable(s)["track-count"] == Number(s.trackCount)
    ensures Exportable(s)["year"] == Number(s.year)
    ensures Exportable(s)["rating"] == Number(s.rating)
  {
    assert |ExportKeys| == 9;
  }

  /**
   * Two tracks with the same export agree on every exported field; the Uri
   * is known only up to its text, so a null Uri and an empty one look alike.
   */
  lemma ExportDeterminesFields(s: TrackState, t: TrackState)
    requires Exportable(s) == Exportable(t)
    ensures UriText(s.uri) == UriText(t.uri) && s.duration == t.duration
    ensures s.trackTitle == t.trackTitle && s.artistName == t.artistName && s.albumTitle == t.albumTitle
    ensures s.trackNumber == t.trackNumber && s.trackCount == t.trackCount
    ensures s.year == t.year && s.rating == t.rating
  {
    assert Exportable(s)["URI"] == Exportable(t)["URI"];
    assert Exportable(s)["length"] == Exportable(t)["length"];
    assert Exportable(s)["name"] == Exportable(t)["name"];
    assert Exportable(s)["artist"] == Exportable(t)["artist"];
    assert Exportable(s)["album"] == Exportable(t)["album"];
    assert Exportable(s)["track-number"] == Exportable(t)["track-number"];
    assert Exportable(s)["track-count"] == Exportable(t)["track-count"];
    assert Exportable(s)["year"] == Exportable(t)["year"];
    assert Exportable(s)["rating"] == Exportable(t)["rating"];
  }

  /** The fields that are not exported do not affect the export. */
  lemma ExportIgnoresOtherFields(s: TrackState, t: TrackState)
    requires UriText(s.uri) == UriText(t.uri) && s.duration == t.duration
    requires s.trackTitle == t.trackTitle && s.artistName == t.artistName && s.albumTitle == t.albumTitle
    requires s.trackNumber == t.trackNumber && s.trackCount == t.trackCount
    requires s.year == t.year && s.rating == t.rating
    ensures Exportable(s) == Exportable(t)
  {
  }

  /** Dictionary.Add, which throws on a key the dictionary already holds. */
  function Add(dict: map<string, ExportValue>, key: string, value: ExportValue): map<string, ExportValue>
    requires key !in dict
  {
    dict[key := value]
  }

  class TrackInfo {
    var uri: Nullable<SafeUri>
    var moreInfoUri: Nullable<SafeUri>
    var mimeType: Nullable<string>
    var artistName: Nullable<string>
    var albumTitle: Nullable<string>
    var trackTitle: Nullable<string>
    var genre: Nullable<string>
    var trackNumber: int32
    var trackCount: int32
    var year: int32
    var rating: int32
    var duration: TimeSpan
    var dateAdded: DateTime
    var playCount: int32
    var skipCount: int32
    var lastPlayed: DateTime
    var attributes: TrackAttributes
    var playbackError: StreamPlaybackError
    /** The cover-art cache; null means "not looked up yet, or not found". */
    var coverArtFile: Nullable<string>

    /** All fields as one value. */
    function State(): TrackState
      reads this
    {
      TrackState(uri, moreInfoUri, mimeType, artistName, albumTitle, trackTitle, genre,
        trackNumber, trackCount, year, rating, duration, dateAdded, playCount, skipCount,
        lastPlayed, attributes, playbackError, coverArtFile)
    }

    constructor ()
      ensures State() == FreshState
      ensures playbackError == StreamPlaybackError.None && coverArtFile == Null
    {
      uri, moreInfoUri, mimeType := Null, Null, Null;
      artistName, albumTitle, trackTitle, genre := Null, Null, Null, Null;
      trackNumber, trackCount, year, rating := 0, 0, 0, 0;
      duration, dateAdded, lastPlayed := TimeSpan(0), DateTime(0), DateTime(0);
      playCount, skipCount := 0, 0;
      attributes := 0;
      playbackError := StreamPlaybackError.None;
      coverArtFile := Null;
    }

    method SetUri(value: Nullable<SafeUri>)
      modifies this
      ensures uri == value && State() == old(State()).(uri := value)
    {
      uri := value;
    }

    method SetMoreInfoUri(value: Nullable<SafeUri>)
      modifies this
      ensures moreInfoUri == value && State() == old(State()).(moreInfoUri := value)
    {
      moreInfoUri := value;
    }

    method SetMimeType(value: Nullable<string>)
      modifies this
      ensures mimeType == value && State() == old(State()).(mimeType := value)
    {
      mimeType := value;
    }

    method SetArtistName(value: Nullable<string>)
      modifies this
      ensures artistName == value && State() == old(State()).(artistName := value)
    {
      artistName := value;
    }

    method SetAlbumTitle(value: Nullable<string>)
      modifies this
      ensures albumTitle == value && State() == old(State()).(albumTitle := value)
    {
      albumTitle := value;
    }

    method SetTrackTitle(value: Nullable<string>)
      modifies this
      ensures trackTitle == value && State() == old(State()).(trackTitle := value)
    {
      trackTitle := value;
    }

    method SetGenre(value: Nullable<string>)
      modifies this
      ensures genre == value && State() == old(State()).(genre := value)
    {
      genre := value;
    }

    method SetTrackNumber(value: int32)
      modifies this
      ensures trackNumber == value && State() == old(State()).(trackNumber := value)
    {
      trackNumber := value;
    }

    method SetTrackCount(value: int32)
      modifies this
      ensures trackCount == value && State() == old(State()).(trackCount := value)
    {
      trackCount := value;
    }

    method SetYear(value: int32)
      modifies this
      ensures year == value && State() == old(State()).(year := value)
    {
      year := value;
    }

    method SetRating(value: int32)
      modifies this
      ensures rating == value && State() == old(State()).(rating := value)
    {
      rating := value;
    }

    method SetPlayCount(value: int32)
      modifies this
      ensures playCount == value && State() == old(State()).(playCount := value)
    {
      playCount := value;
    }

    method SetSkipCount(value: int32)
      modifies this
      ensures skipCount == value && State() == old(State()).(skipCount := value)
    {
      skipCount := value;
    }

    method SetDuration(value: TimeSpan)
      modifies this
      ensures duration == value && State() == old(State()).(duration := value)
    {
      duration := value;
    }

    method SetDateAdded(value: DateTime)
      modifies this
      ensures dateAdded == value && State() == old(State()).(dateAdded := value)
    {
      dateAdded := value;
    }

    method SetLastPlayed(value: DateTime)
      modifies this
      ensures lastPlayed == value && State() == old(State()).(lastPlayed := value)
    {
      lastPlayed := value;
    }

    /** The protected setter of Attributes. */
    method SetAttributes(value: TrackAttributes)
      modifies this
      ensures attributes == value && State() == old(State()).(attributes := value)
    {
      attributes := value;
    }

    method SetPlaybackError(value: StreamPlaybackError)
      modifies this
      ensures playbackError == value && State() == old(State()).(playbackError := value)
    {
      playbackError := value;
    }

    function DisplayArtistName(): (r: string)
      reads this
      ensures r != []
      ensures !IsNullOrEmpty(artistName) ==> r == artistName.value
      ensures IsNullOrEmpty(artistName) ==> r == UnknownArtist
    {
      DisplayOr(artistName, UnknownArtist)
    }

    function DisplayAlbumTitle(): (r: string)
      reads this
      ensures r != []
      ensures !IsNullOrEmpty(albumTitle) ==> r == albumTitle.value
      ensures IsNullOrEmpty(albumTitle) ==> r == UnknownAlbum
    {
      DisplayOr(albumTitle, UnknownAlbum)
    }

    function DisplayTrackTitle(): (r: string)
      reads this
      ensures r != []
      ensures !IsNullOrEmpty(trackTitle) ==> r == trackTitle.value
      ensures IsNullOrEmpty(trackTitle) ==> r == UnknownTitle
    {
      DisplayOr(trackTitle, UnknownTitle)
    }

    /** True exactly when the IsLive bit of Attributes is set. */
    function IsLive(): (b: bool)
      reads this
      ensures b <==> BitSet(attributes, IsLiveBit)
    {
      SingleBitFlag(attributes, IsLiveBit);
      HasFlag(attributes, IsLiveFlag)
    }

    /** True exactly when the CanPlay bit of Attributes is set. */
    function CanPlay(): (b: bool)
      reads this
      ensures b <==> BitSet(attributes, CanPlayBit)
    {
      SingleBitFlag(attributes, CanPlayBit);
      HasFlag(attributes, CanPlayFlag)
    }

    /**
     * The CoverArtFileName getter. A cached name is returned as it is;
     * otherwise the store paths and then the track's folder are searched, and
     * the first existing file becomes the cache. When nothing is found the
     * cache stays null, so the next call searches again.
     */
    method CoverArtFileName(host: Host) returns (r: CoverLookup)
      modifies this
      ensures old(coverArtFile).NonNull? ==>
        r == Found(old(coverArtFile).value) && State() == old(State())
      ensures old(coverArtFile).Null? ==>
        r == SearchCover(host, old(artistName), old(albumTitle), old(uri))
      ensures old(coverArtFile).Null? ==>
        State() == old(State()).(coverArtFile := if r.Found? then NonNull(r.path) else Null)
    {
      if coverArtFile.NonNull? {
        return Found(coverArtFile.value);
      }

      var id := host.artistAlbumId(artistName, albumTitle);
      ghost var store := StorePaths(host, id);
      var x := 0;
      while x < |CoverExtensions|
        invariant 0 <= x <= |CoverExtensions|
        invariant forall e :: 0 <= e < x ==> store[e] !in host.existing
        invariant State() == old(State())
      {
        var path := host.coverArtPath(id, "." + CoverExtensions[x]);
        assert path == store[x];
        if path in host.existing {
          coverArtFile := NonNull(path);
          return Found(path);
        }
        x := x + 1;
      }

      if uri.Null? {
        return NullUriFault;
      }
      var dir := host.directoryName(uri.value.absolutePath);
      var basePath := (if dir.Null? then "" else dir.value) + [host.directorySeparator];
      assert basePath == BasePath(host, uri.value.absolutePath);
      ghost var folder := TrackFolderPaths(host, uri.value);

      var n := 0;
      while n < |CoverNames|
        invariant 0 <= n <= |CoverNames|
        invariant forall t :: 0 <= t < 4 * n ==> folder[t] !in host.existing
        invariant State() == old(State())
      {
        var e := 0;
        while e < |CoverExtensions|
          invariant 0 <= e <= |CoverExtensions|
          invariant forall t :: 0 <= t < 4 * n + e ==> folder[t] !in host.existing
          invariant State() == old(State())
        {
          var img := basePath + CoverNames[n] + "." + CoverExtensions[e];
          FolderPathAt(basePath, CoverNames, CoverExtensions, n, e);
          assert img == folder[4 * n + e];
          if img in host.existing {
            coverArtFile := NonNull(img);
            return Found(img);
          }
          e := e + 1;
        }
        n := n + 1;
      }
      return NotFound;
    }

    /** The CoverArtFileName setter: the argument becomes the cache verbatim. */
    method SetCoverArtFileName(value: Nullable<string>)
      modifies this
      ensures coverArtFile == value && State() == old(State()).(coverArtFile := value)
    {
      coverArtFile := value;
    }

    /** Builds the a{sv} metadata map of the track, one Add per key. */
    method GenerateExportable() returns (dict: map<string, ExportValue>)
      ensures dict == Exportable(State())
    {
      dict := map[];
      dict := Add(dict, "URI", Text(NonNull(if uri.Null? then "" else uri.value.absoluteUri)));
      dict := Add(dict, "length", Seconds(duration));
      dict := Add(dict, "name", Text(trackTitle));
      dict := Add(dict, "artist", Text(artistName));
      dict := Add(dict, "album", Text(albumTitle));
      dict := Add(dict, "track-number", Number(trackNumber));
      dict := Add(dict, "track-count", Number(trackCount));
      dict := Add(dict, "year", Number(year));
      dict := Add(dict, "rating", Number(rating));
    }
  }
}
