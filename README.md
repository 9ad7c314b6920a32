# TrackInfo: the track-metadata record of the Banshee media player

This project models `TrackInfo`, the class that holds one track's metadata in
the player's media library. A track is a bag of properties: URI, artist,
album, title, genre, track number and count, year, rating, duration, play and
skip counts, dates, an attribute bit mask and a playback error. On top of
the plain properties it offers:

- display names that fall back to "Unknown Artist", "Unknown Album" and
  "Unknown Title" when the stored value is null or empty;
- the `IsLive` and `CanPlay` tests on the attribute mask;
- a memoised cover-art lookup. It tries the shared cover-art store first,
  then the track's own folder, with fixed name and extension orders, and
  caches the first file that exists;
- an export of the track as a key/value map. This follows the XMMS2
  "Media Player Interfaces / Metadata" convention, plus the player's own
  keys.

Layout:

- `banshee_types.dfy`, module `BansheeTypes`: the value types that
  `TrackInfo` stores but that are defined elsewhere. These are null-able
  references, `SafeUri`, the 32-bit `int`, `TimeSpan`, `DateTime`,
  `StreamPlaybackError` and the `TrackAttributes` flag mask. It also holds
  the flag-test lemmas.
- `cover_art.dfy`, module `CoverArt`: the cover-art search as a
  specification. This means the ordered candidate paths, the first that
  exists, and lemmas about where the search stops.
- `track_info.dfy`, module `Collection`: the class `TrackInfo`. Its fields
  are updated in place by its setter methods. It also holds the display and
  flag functions, the cover-art getter (a method with the source's nested
  loops that writes the cache), and `GenerateExportable` with its
  specification `Exportable`.

The outside world enters as parameters:

- `File.Exists` is membership in the set `Host.existing`.
- `AlbumInfo.CreateArtistAlbumId(artist, album, false)`,
  `Paths.GetCoverArtPath`, `Path.GetDirectoryName` and
  `Path.DirectorySeparatorChar` are fields of the `Host` value, so the
  lookup holds for any choice of them. `Path.GetDirectoryName` may answer
  null.
- `Catalog.GetString` returns the English placeholder unchanged.

When the track has no `Uri` and no store file exists, the getter reads
`Uri.AbsolutePath` on a null reference. That raises a
`NullReferenceException`, which the model returns as the outcome
`NullUriFault`. A null directory name concatenated with the separator char
gives just the separator, as C# string concatenation does.

## Model

| member | source | states |
|---|---|---|
| `BansheeTypes.SingleBitFlag` | src/Core/Banshee.Core/Banshee.Collection/TrackInfo.cs:200-206 | for a single-bit flag, the `(mask & flag) == flag` test is true exactly when that bit of the mask is set |
| `BansheeTypes.FlagIgnoresOtherBits` | src/Core/Banshee.Core/Banshee.Collection/TrackInfo.cs:200-206 | two masks that agree on a flag's bit give the same flag test, whatever their other bits |
| `Collection.TrackInfo.IsLive` | src/Core/Banshee.Core/Banshee.Collection/TrackInfo.cs:200-202 | true exactly when the IsLive bit of Attributes is set |
| `Collection.TrackInfo.CanPlay` | src/Core/Banshee.Core/Banshee.Collection/TrackInfo.cs:204-206 | true exactly when the CanPlay bit of Attributes is set |
| `Collection.TrackInfo.DisplayArtistName` | src/Core/Banshee.Core/Banshee.Collection/TrackInfo.cs:114-120 | never empty; the stored artist when it is non-null and non-empty, "Unknown Artist" otherwise |
| `Collection.TrackInfo.DisplayAlbumTitle` | src/Core/Banshee.Core/Banshee.Collection/TrackInfo.cs:122-128 | never empty; the stored album when it is non-null and non-empty, "Unknown Album" otherwise |
| `Collection.TrackInfo.DisplayTrackTitle` | src/Core/Banshee.Core/Banshee.Collection/TrackInfo.cs:130-136 | never empty; the stored title when it is non-null and non-empty, "Unknown Title" otherwise |
| `Collection.TrackInfo.constructor` | src/Core/Banshee.Core/Banshee.Collection/TrackInfo.cs:42-69 | a new record holds the .NET defaults: null references, zero numbers and dates, an empty mask, PlaybackError None and no cached cover |
| `Collection.TrackInfo.SetUri` | src/Core/Banshee.Core/Banshee.Collection/TrackInfo.cs:81-84 | Uri reads back the value set; no other field changes |
| `Collection.TrackInfo.SetMoreInfoUri` | src/Core/Banshee.Core/Banshee.Collection/TrackInfo.cs:86-89 | MoreInfoUri reads back the value set; no other field changes |
| `Collection.TrackInfo.SetMimeType` | src/Core/Banshee.Core/Banshee.Collection/TrackInfo.cs:91-94 | MimeType reads back the value set; no other field changes |
| `Collection.TrackInfo.SetArtistName` | src/Core/Banshee.Core/Banshee.Collection/TrackInfo.cs:96-100 | ArtistName reads back the value set; no other field changes |
| `Collection.TrackInfo.SetAlbumTitle` | src/Core/Banshee.Core/Banshee.Collection/TrackInfo.cs:102-106 | AlbumTitle reads back the value set; no other field changes |
| `Collection.TrackInfo.SetTrackTitle` | src/Core/Banshee.Core/Banshee.Collection/TrackInfo.cs:108-112 | TrackTitle reads back the value set; no other field changes |
| `Collection.TrackInfo.SetGenre` | src/Core/Banshee.Core/Banshee.Collection/TrackInfo.cs:138-141 | Genre reads back the value set; no other field changes |
| `Collection.TrackInfo.SetTrackNumber` | src/Core/Banshee.Core/Banshee.Collection/TrackInfo.cs:143-147 | TrackNumber reads back the value set; no other field changes |
| `Collection.TrackInfo.SetTrackCount` | src/Core/Banshee.Core/Banshee.Collection/TrackInfo.cs:149-152 | TrackCount reads back the value set; no other field changes |
| `Collection.TrackInfo.SetYear` | src/Core/Banshee.Core/Banshee.Collection/TrackInfo.cs:154-157 | Year reads back the value set; no other field changes |
| `Collection.TrackInfo.SetRating` | src/Core/Banshee.Core/Banshee.Collection/TrackInfo.cs:159-162 | Rating reads back the value set; no other field changes |
| `Collection.TrackInfo.SetPlayCount` | src/Core/Banshee.Core/Banshee.Collection/TrackInfo.cs:164-167 | PlayCount reads back the value set; no other field changes |
| `Collection.TrackInfo.SetSkipCount` | src/Core/Banshee.Core/Banshee.Collection/TrackInfo.cs:169-172 | SkipCount reads back the value set; no other field changes |
| `Collection.TrackInfo.SetDuration` | src/Core/Banshee.Core/Banshee.Collection/TrackInfo.cs:174-178 | Duration reads back the value set; no other field changes |
| `Collection.TrackInfo.SetDateAdded` | src/Core/Banshee.Core/Banshee.Collection/TrackInfo.cs:180-183 | DateAdded reads back the value set; no other field changes |
| `Collection.TrackInfo.SetLastPlayed` | src/Core/Banshee.Core/Banshee.Collection/TrackInfo.cs:185-188 | LastPlayed reads back the value set; no other field changes |
| `Collection.TrackInfo.SetAttributes` | src/Core/Banshee.Core/Banshee.Collection/TrackInfo.cs:190-193 | Attributes (protected setter) reads back the value set; no other field changes |
| `Collection.TrackInfo.SetPlaybackError` | src/Core/Banshee.Core/Banshee.Collection/TrackInfo.cs:195-198 | PlaybackError reads back the value set; no other field changes |
| `Collection.TrackInfo.CoverArtFileName` | src/Core/Banshee.Core/Banshee.Collection/TrackInfo.cs:208-239 | a cached name is returned unchanged and nothing changes; otherwise the result is the search over store then folder, a hit becomes the cache, and a miss or a fault leaves the cache null so the next call searches again |
| `Collection.TrackInfo.SetCoverArtFileName` | src/Core/Banshee.Core/Banshee.Collection/TrackInfo.cs:241 | the argument becomes the cache verbatim (null included); no other field changes |
| `CoverArt.FirstIndex` | src/Core/Banshee.Core/Banshee.Collection/TrackInfo.cs:218-236 | the first index whose path exists, or the length when none does: every earlier path is missing |
| `CoverArt.FirstIndexAppend` | src/Core/Banshee.Core/Banshee.Collection/TrackInfo.cs:215-236 | searching two candidate lists in turn finds the same path as searching their concatenation |
| `CoverArt.StorePaths` | src/Core/Banshee.Core/Banshee.Collection/TrackInfo.cs:216-219 | the store is probed once per extension, four paths |
| `CoverArt.BasePath` | src/Core/Banshee.Core/Banshee.Collection/TrackInfo.cs:226 | the folder prefix ends in the directory separator |
| `CoverArt.FolderPaths` | src/Core/Banshee.Core/Banshee.Collection/TrackInfo.cs:228-230 | every name is paired with every extension: names times extensions candidates |
| `CoverArt.FolderPathAt` | src/Core/Banshee.Core/Banshee.Collection/TrackInfo.cs:228-230 | candidate i * extensions + j is name i with extension j (name-major order) |
| `CoverArt.TrackFolderPaths` | src/Core/Banshee.Core/Banshee.Collection/TrackInfo.cs:244-254 | a track's folder yields 4 x 4 candidates from the fixed name and extension lists |
| `CoverArt.TrackFolderPathAt` | src/Core/Banshee.Core/Banshee.Collection/TrackInfo.cs:226-230 | folder candidate 4n + e is the directory of the URI path, the separator, name n, "." and extension e |
| `CoverArt.Candidates` | src/Core/Banshee.Core/Banshee.Collection/TrackInfo.cs:215-236 | a track with a Uri has exactly twenty candidates |
| `CoverArt.SearchCover` | src/Core/Banshee.Core/Banshee.Collection/TrackInfo.cs:215-238 | a found path exists; the null-Uri fault happens exactly when the Uri is null and every store path is missing; null is answered only for a track with a Uri whose four store paths and sixteen folder paths are all missing |
| `CoverArt.CandidateStoreAt` | src/Core/Banshee.Core/Banshee.Collection/TrackInfo.cs:216-219 | candidates 0 to 3 are the cover-art store path for the artist/album id with ".jpg", ".png", ".jpeg", ".gif" in that order |
| `CoverArt.CandidateFolderAt` | src/Core/Banshee.Core/Banshee.Collection/TrackInfo.cs:226-230 | candidate 4 + 4n + e is the track's directory, the separator, name n, "." and extension e |
| `CoverArt.SearchIsFirstMatch` | src/Core/Banshee.Core/Banshee.Collection/TrackInfo.cs:215-238 | for a track with a Uri, the two-phase search is a first-match over the twenty candidates: the first existing one, or null |
| `CoverArt.SearchFindsFirstExisting` | src/Core/Banshee.Core/Banshee.Collection/TrackInfo.cs:218-236 | a found path exists and is a candidate before which no candidate exists |
| `CoverArt.SearchNotFound` | src/Core/Banshee.Core/Banshee.Collection/TrackInfo.cs:238 | the search answers null exactly when none of the twenty candidates exists |
| `CoverArt.StoreFirst` | src/Core/Banshee.Core/Banshee.Collection/TrackInfo.cs:215-226 | an existing store path wins over the folder and over a null Uri; a null Uri faults exactly when no store path exists |
| `Collection.TrackInfo.GenerateExportable` | src/Core/Banshee.Core/Banshee.Collection/TrackInfo.cs:257-275 | the map built key by key is the track's export, and no Add meets a key already present |
| `Collection.Exportable` | src/Core/Banshee.Core/Banshee.Collection/TrackInfo.cs:257-274 | the export map has exactly the nine keys URI, length, name, artist, album, track-number, track-count, year and rating |
| `Collection.ExportMirrorsFields` | src/Core/Banshee.Core/Banshee.Collection/TrackInfo.cs:259-272 | exactly nine keys; "URI" is "" for a null Uri and the absolute URI otherwise; the other keys carry their fields |
| `Collection.ExportDeterminesFields` | src/Core/Banshee.Core/Banshee.Collection/TrackInfo.cs:262-272 | equal exports mean equal exported fields, with the Uri known only up to its text |
| `Collection.ExportIgnoresOtherFields` | src/Core/Banshee.Core/Banshee.Collection/TrackInfo.cs:257-274 | fields outside the nine keys (genre, MIME type, counts, dates, mask, cache) do not affect the export |

## Left out

- `ToString` (TrackInfo.cs:71-75) is not modelled. It formats a `TimeSpan` through `String.Format`.
- `Save` (TrackInfo.cs:77-79) is not modelled. It is an empty virtual method.
- Property getters are plain field reads of the class. Subclasses that override the virtual properties are not modelled. In this class each getter returns its field, so `GenerateExportable` reading the `year` and `rating` fields directly is the same as reading the properties.
- Collection.TrackInfo.GenerateExportable: "length" is `Duration.TotalSeconds`, a double. The model exports the `TimeSpan` it is computed from, and floating point is not modelled.
- `TimeSpan` and `DateTime` are opaque tick counts. Nothing in the class inspects them.
- `SafeUri` parsing is not part of this model. A URI is given by its absolute URI and absolute path.
- The `TrackAttributes` and `StreamPlaybackError` enumerations are not part of this model. CanPlay and IsLive are taken as bits 0 and 1. The flag lemmas hold for any single-bit flag. Playback errors other than None are a code.
- `Catalog.GetString` localisation is not modelled. The placeholders are the English strings.
- The cover name and extension lists are not modelled as mutable. In the source they are `protected static string[]` arrays (TrackInfo.cs:244, 250), and the public `CoverNames` and `CoverExtensions` getters hand out the arrays themselves, so a caller or a subclass can change them. The model takes their initial contents as constants, so the counts 4, 16 and 20 and the candidate order hold only while the arrays keep those contents.
- `File.Exists`, `AlbumInfo.CreateArtistAlbumId`, `Paths.GetCoverArtPath`, `Path.GetDirectoryName` and the directory separator are inputs (`CoverArt.Host`), not definitions.
- The `ListItemSetup` column attributes are not modelled. They only configure list views.
- Thread affinity and dispatch (`ThreadAssist.cs`), the MeeGo panel, the folder-import dialog, the album list view and the repeat button are not modelled. They are concurrency, UI toolkit and I/O glue, outside the track record.
