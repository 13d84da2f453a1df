/**
  TrackListView.ViewModel (OpenTunes4/TrackListView.swift): playback state and
  the loading of the catalog into the list's data source.

  The audio player is reduced to the url of its current item; the media
  library's authorization answer, the simulator flag, the bundled urls and
  the library's songs are inputs.
 */
module TrackList {
  import opened Wrappers
  import opened Catalog

  /** The media library's answer to the authorization request. */
  datatype AuthorizationStatus = NotDetermined | Denied | Restricted | Authorized

  /**
    How loadTracks ends: the catalog was loaded and its first record selected;
    the library was not authorized, so nothing happened; or the catalog was
    empty and selecting `dataSource[0]` traps (the state is the one at the trap).
   */
  datatype LoadOutcome = Loaded | NotAuthorized | IndexOutOfRange

  class ViewModel {
    var currentTrack: Option<Track>
    var isPlaying: bool
    /** The url of the player's current item, none before the first play. */
    var playerItem: Option<string>
    var dataSource: seq<Track>

    constructor (isPlaying: bool := false)
      ensures this.isPlaying == isPlaying
      ensures currentTrack == None && playerItem == None && dataSource == []
    {
      this.isPlaying := isPlaying;
      currentTrack := None;
      playerItem := None;
      dataSource := [];
    }

    /** Replace the player's item with the track's url, start it, and make the track current. */
    method Play(track: Track)
      modifies this
      ensures currentTrack == Some(track) && isPlaying && playerItem == Some(track.url)
      ensures dataSource == old(dataSource)
    {
      playerItem := Some(track.url);
      currentTrack := Some(track);
      isPlaying := true;
    }

    /** Pause the player; the current track and the player's item stay. */
    method Stop()
      modifies this
      ensures !isPlaying
      ensures currentTrack == old(currentTrack) && playerItem == old(playerItem) && dataSource == old(dataSource)
    {
      isPlaying := false;
    }

    /** Fetch every record and delete them one by one; the store ends up empty. */
    method DeleteAllTracks(context: Context)
      modifies context
      ensures context.records == []
    {
      var coreDataTracks := context.records;
      var i := 0;
      while i < |coreDataTracks|
        invariant 0 <= i <= |coreDataTracks|
        invariant context.records == coreDataTracks[i..]
      {
        assert coreDataTracks[i..] == [coreDataTracks[i]] + coreDataTracks[i + 1..];
        context.Delete(coreDataTracks[i]);
        i := i + 1;
      }
    }

    /**
      Fetch with the predicate `url == u` and limit 1: nothing exactly when no
      record has url `u`, otherwise the first stored record with that url.
     */
    function FetchTrackByUrl(context: Context, url: string): (r: Option<Track>)
      reads context
      ensures r.None? <==> !HasUrl(context.records, url)
      ensures r.Some? ==> r.value.url == url && r.value in context.records
    {
      FirstWithUrl(context.records, url)
    }

    /**
      For each song, in order, create a record unless one with its url is
      stored; the store becomes the merge of the old store with the songs.
     */
    method LoadTracksFromLibrary(context: Context, mediaItems: seq<MediaItem>, tagsOf: string -> TagBundle)
      modifies context
      ensures context.records == Merge(old(context.records), mediaItems, tagsOf)
    {
      ghost var initial := context.records;
      var i := 0;
      while i < |mediaItems|
        invariant 0 <= i <= |mediaItems|
        invariant context.records == Merge(initial, mediaItems[..i], tagsOf)
      {
        var item := mediaItems[i];
        var trackDB := FetchTrackByUrl(context, item.assetUrl);
        if trackDB.None? {
          var track := UrlToTrack(item.assetUrl, tagsOf);
          context.Insert(track.(dateAdded := Some(item.dateAdded)));
        }
        assert mediaItems[..i + 1][..i] == mediaItems[..i];
        i := i + 1;
      }
      assert mediaItems[..|mediaItems|] == mediaItems;
    }

    /** Fetch every record, in no promised order, into the data source. */
    method LoadTracksFromDB(context: Context)
      modifies this
      ensures multiset(dataSource) == multiset(context.records)
      ensures currentTrack == old(currentTrack) && isPlaying == old(isPlaying) && playerItem == old(playerItem)
    {
      dataSource := context.records;
    }

    /** The bundled-file import: empty the store, then create one record per bundled url. */
    method ResyncBundledTracks(context: Context, bundledUrls: seq<string>, tagsOf: string -> TagBundle, fileDateAdded: string -> Option<Date>)
      modifies context
      ensures context.records == BundledCatalog(bundledUrls, tagsOf, fileDateAdded)
    {
      DeleteAllTracks(context);
      var i := 0;
      while i < |bundledUrls|
        invariant 0 <= i <= |bundledUrls|
        invariant context.records == BundledCatalog(bundledUrls[..i], tagsOf, fileDateAdded)
      {
        var url := bundledUrls[i];
        var track := UrlToTrack(url, tagsOf);
        context.Insert(track.(dateAdded := fileDateAdded(url)));
        assert bundledUrls[..i + 1][..i] == bundledUrls[..i];
        i := i + 1;
      }
      assert bundledUrls[..|bundledUrls|] == bundledUrls;
    }

    /** Publish the store into the data source and select its first record as current. */
    method PublishAndSelectFirst(context: Context) returns (outcome: LoadOutcome)
      modifies this
      ensures multiset(dataSource) == multiset(context.records)
      ensures outcome == (if context.records == [] then IndexOutOfRange else Loaded)
      ensures outcome == Loaded ==> currentTrack == Some(dataSource[0]) && dataSource[0] in context.records
      ensures outcome == IndexOutOfRange ==> currentTrack == old(currentTrack)
      ensures isPlaying == old(isPlaying) && playerItem == old(playerItem)
    {
      LoadTracksFromDB(context);
      if |dataSource| == 0 {
        assert |multiset(context.records)| == 0;
        return IndexOutOfRange;
      }
      assert dataSource[0] in multiset(context.records);
      currentTrack := Some(dataSource[0]);
      return Loaded;
    }

    /**
      On the simulator, resynchronise from the bundled files; on a device, once
      the library is authorized, merge the library's songs into the store.
      Either way the store is then published and its first record selected.
      Any other authorization answer changes nothing.
     */
    method LoadTracks(context: Context, isSimulator: bool, bundledUrls: seq<string>, fileDateAdded: string -> Option<Date>,
                      status: AuthorizationStatus, mediaItems: seq<MediaItem>, tagsOf: string -> TagBundle)
      returns (outcome: LoadOutcome)
      modifies this, context
      ensures isSimulator ==> context.records == BundledCatalog(bundledUrls, tagsOf, fileDateAdded)
      ensures !isSimulator && status == Authorized ==>
                context.records == Merge(old(context.records), mediaItems, tagsOf)
      ensures !isSimulator && status != Authorized ==>
                outcome == NotAuthorized && context.records == old(context.records) &&
                dataSource == old(dataSource) && currentTrack == old(currentTrack)
      ensures (isSimulator || status == Authorized) ==>
                multiset(dataSource) == multiset(context.records) &&
                outcome == (if context.records == [] then IndexOutOfRange else Loaded)
      ensures outcome == Loaded ==> currentTrack == Some(dataSource[0]) && dataSource[0] in context.records
      ensures outcome == IndexOutOfRange ==> currentTrack == old(currentTrack)
      ensures isPlaying == old(isPlaying) && playerItem == old(playerItem)
    {
      if isSimulator {
        ResyncBundledTracks(context, bundledUrls, tagsOf, fileDateAdded);
        outcome := PublishAndSelectFirst(context);
      } else if status == Authorized {
        LoadTracksFromLibrary(context, mediaItems, tagsOf);
        outcome := PublishAndSelectFirst(context);
      } else {
        outcome := NotAuthorized;
      }
    }
  }
}
