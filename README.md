# OpenTunes4 track catalog and playback state, in Dafny

OpenTunes4 is an iOS music player. This project models the part of it with
logic of its own: the view model behind the track list
(`TrackListView.ViewModel`), which imports tracks into a persisted store,
publishes the store into the list's data source and keeps the playback state,
and the two "first matching tag" helpers of `Utils.swift`.

- `wrappers.dfy` — `Option`, the counterpart of Swift's optionals.
- `tags.dfy` (module `Tags`) — `getTagFilterByIdentifier` and `getArtwork`
  as functions over an asset's metadata items, with lemmas that only the first
  matching item matters.
- `catalog.dfy` (module `Catalog`) — the track record, the object store
  (`Context`, a class holding the records as a sequence), and the two imports
  as specification functions: `Merge` (the incremental media-library import)
  and `BundledCatalog` (the simulator's full resync), with the lemmas about
  them: existing records stay, urls stay unique, the merge is idempotent, and
  each new url yields exactly one record dated by its first song.
- `tracklist.dfy` (module `TrackList`) — the `ViewModel` class with its fields
  `currentTrack`, `isPlaying`, the player's current item and `dataSource`, and
  its methods, whose loops are proved against the functions of `Catalog`.

Inputs the model takes as parameters: whether the app runs on the simulator,
the bundled mp3 urls, the media library's songs as (url, date added) pairs,
the authorization answer, the tag extraction `urlToTrack` performs
(`tagsOf`), and `fileDateAdded`. `Catalog.UrlToTrack` stands for `urlToTrack`,
whose body is not part of this model: it builds the record for a url from
`tagsOf(url)` with no date, and every caller in the view model then
overwrites the date.

Three facts about the code shape the contracts:

- the fetch at OpenTunes4/TrackListView.swift:110-111 requests no sort order,
  so the data source is stated only as a multiset of the store's records;
- `dataSource[0]` at OpenTunes4/TrackListView.swift:126 and :133 traps on an
  empty store; the model returns the outcome `IndexOutOfRange` with the state
  as it was at the trap;
- the library import skips a song whose url is stored and never updates the
  stored record.

## Model

| member | source | states |
|---|---|---|
| `Tags.FilterByIdentifier` | OpenTunes4/Utils.swift:24 | the filtered items all carry the identifier, come from the input, and include every matching item |
| `Tags.FilterConcat` | OpenTunes4/Utils.swift:24 | filtering a concatenation is the concatenation of the filtered parts |
| `Tags.FilterHead` | OpenTunes4/Utils.swift:26-27 | the filtered items are empty exactly when nothing matches; otherwise the first of them is the first matching item of the input |
| `Tags.GetTagFilterByIdentifier` | OpenTunes4/Utils.swift:23-30 | the result is the first matching item's string value; it is `""` (not nil) when nothing matches; it is nil only when the first match has no string value |
| `Tags.GetArtwork` | OpenTunes4/Utils.swift:6-13 | the image is built from the first artwork item's data; it is the empty image when there is no artwork item or the first one has no data, whatever later items hold |
| `Tags.OtherIdentifiersIgnored` | OpenTunes4/Utils.swift:24-27 | inserting an item with a different identifier anywhere changes neither helper's result |
| `Tags.LaterMatchesIgnored` | OpenTunes4/Utils.swift:7-27 | once a prefix holds a match, anything appended after it changes neither helper's result: neither the artwork choice (lines 7-10) nor the tag choice (lines 24-27) |
| `Catalog.FirstWithUrl` | OpenTunes4/TrackListView.swift:83-87 | the result is nothing exactly when no record has the url; otherwise it has the url and is the first stored record with it |
| `Catalog.MergeStep` | OpenTunes4/TrackListView.swift:95-100 | one iteration keeps the store as a prefix, adds one record exactly when the url was not stored, leaves the url stored, and keeps unique urls unique |
| `Catalog.RemoveFirst` | OpenTunes4/TrackListView.swift:76 | deleting a stored record takes exactly one copy of it out of the store; deleting an absent one changes nothing |
| `Catalog.Merge` | OpenTunes4/TrackListView.swift:94-101 | the records that existed before the import are kept unchanged, in front, and at most one record is added per song |
| `Catalog.MergeCovers` | OpenTunes4/TrackListView.swift:94-101 | after the import every song's url is stored |
| `Catalog.MergeOfStored` | OpenTunes4/TrackListView.swift:95-96 | songs whose urls are all stored add nothing |
| `Catalog.MergeIdempotent` | OpenTunes4/TrackListView.swift:94-101 | importing the same songs a second time leaves the store as the first import left it |
| `Catalog.MergeKeepsUrlsUnique` | OpenTunes4/TrackListView.swift:94-101 | if stored urls are unique before the import they are unique after it, even when songs repeat a url |
| `Catalog.MergeNewRecords` | OpenTunes4/TrackListView.swift:95-99 | every added record has a url the store did not hold, and comes from the first song with that url: it carries that song's url, the url's tags and that song's `dateAdded` |
| `Catalog.MergeNewUrlsDistinct` | OpenTunes4/TrackListView.swift:94-100 | the added records have pairwise different urls |
| `Catalog.MergeExactlyOneNew` | OpenTunes4/TrackListView.swift:95-99 | a song whose url was not stored yields exactly one added record with that url |
| `Catalog.BundledCatalog` | OpenTunes4/TrackListView.swift:118-124 | the resynced store holds exactly one record per bundled url, in order, with the url's tags and `dateAdded = fileDateAdded(url)` |
| `Catalog.BundledUniqueIffDistinct` | OpenTunes4/TrackListView.swift:120-124 | with no dedupe check, the resynced store has unique urls exactly when the bundled urls are distinct |
| `Catalog.Context.Insert` | OpenTunes4/TrackListView.swift:97-99 | creating and saving a record appends it to the store |
| `Catalog.Context.Delete` | OpenTunes4/TrackListView.swift:76 | deleting a record removes its first occurrence from the store |
| `TrackList.ViewModel.constructor` | OpenTunes4/TrackListView.swift:44-48 | a new view model has no current track, no player item, an empty data source and the given `isPlaying`, false by default |
| `TrackList.ViewModel.Play` | OpenTunes4/TrackListView.swift:50-64 | the player's item becomes the track's url, the track becomes current and `isPlaying` is true; the data source is unchanged |
| `TrackList.ViewModel.Stop` | OpenTunes4/TrackListView.swift:66-70 | `isPlaying` becomes false; the current track, the player's item and the data source are unchanged |
| `TrackList.ViewModel.DeleteAllTracks` | OpenTunes4/TrackListView.swift:72-79 | after deleting the fetched records one by one the store is empty |
| `TrackList.ViewModel.FetchTrackByUrl` | OpenTunes4/TrackListView.swift:81-88 | the fetch returns nothing exactly when no record has the url, otherwise a stored record with that url |
| `TrackList.ViewModel.LoadTracksFromLibrary` | OpenTunes4/TrackListView.swift:90-101 | the store after the loop is `Merge` of the store before it with the songs |
| `TrackList.ViewModel.LoadTracksFromDB` | OpenTunes4/TrackListView.swift:109-112 | the data source holds exactly the store's records (as a multiset); playback state is unchanged |
| `TrackList.ViewModel.ResyncBundledTracks` | OpenTunes4/TrackListView.swift:115-124 | whatever the store held, it ends up as `BundledCatalog` of the bundled urls |
| `TrackList.ViewModel.PublishAndSelectFirst` | OpenTunes4/TrackListView.swift:125-126 | the data source holds the store's records; on a non-empty store its first record becomes current; on an empty one the outcome is `IndexOutOfRange` and the current track is untouched |
| `TrackList.ViewModel.LoadTracks` | OpenTunes4/TrackListView.swift:114-138 | the simulator branch replaces the store by `BundledCatalog`; the authorized device branch replaces it by `Merge`; both publish and select the first record; any other authorization answer changes nothing; playback state is never touched |

## Left out

- SwiftUI views (`TrackListView.body`, `SearchView`, `PlayerView`, `TrackDetailView`, `ContentView`, `OpenTunes4App`) and `KeyboardObserver`: presentation and notification plumbing only.
- `ContentView.ViewModel.loadTracks`: a plain fetch of every record, the same as `LoadTracksFromDB`.
- `PlayerView`'s calls to `model.pause()` and `play(track: nil)`: no such methods exist on the view model shown.
- The audio session (`setCategory`, `setActive` and the logged failure) and the player's `pause`/`play` calls: framework calls; only the url of the player's current item is kept.
- `MPMediaLibrary.requestAuthorization` and the hop to the main queue: the asynchronous answer is the `status` input, and the continuation is modelled as running to completion inside `LoadTracks`.
- `Platform.isSimulator`, `Bundle.main.urls` and `MPMediaQuery.songs()`: inputs.
- `urlToTrack` and `fileDateAdded`: their bodies are not part of this model; `Catalog.UrlToTrack` builds the record from the `tagsOf` parameter, and `fileDateAdded` is a parameter that may return no date, since `dateAdded` is optional.
- Urls are modelled as one string: the `url.relativeString` the fetch compares (OpenTunes4/TrackListView.swift:83) is taken to be the string `urlToTrack` stores in the record's `url`; the uniqueness and idempotence lemmas hold in the app only under that assumption.
- Persistence failures (`try!` on fetch, delete and save), and the force unwraps of `Bundle.main.urls(...)!`, `items!`, `item.assetURL!`, `track.url!`, `URL(string:)!` and `UIImage(data:)!`: urls and asset urls are always present strings, persistence never fails, and artwork data always decodes.
- `context.save()`: records are persistent as soon as they are inserted or deleted.
- The `DispatchTime` timing print, `formatDuration`, durations, the BPM display and `formatDate`: output formatting and floating point.
- `Tags.FilterByIdentifier`: the framework's `metadataItems(from:filteredByIdentifier:)` is taken to keep the asset's metadata order; the framework does not document that order.
- `TrackList.ViewModel.LoadTracksFromDB`: states only multiset equality with the store, because the fetch requests no sort order.
- `Catalog.FirstWithUrl`: picks the first matching record in insertion order, where the store, fetching with no sort order, promises only some record with the url; `TrackList.ViewModel.FetchTrackByUrl` promises only a stored record with that url.
