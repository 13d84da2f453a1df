/**
  The persisted track catalog behind TrackListView.ViewModel
  (OpenTunes4/TrackListView.swift): the track record, the object store it
  lives in, and the two ways the view model fills that store.

  The store is a sequence of records, kept in insertion order. Its natural key is
  the record's url; the store itself does not enforce that key, the import
  does.
 */
module Catalog {
  import opened Wrappers

  /** A point in time (the source's `Date`), kept abstract. */
  type Date = int

  /** The tag fields a record gets when it is created from a url. */
  datatype TagBundle = TagBundle(artist: Option<string>, title: Option<string>, initialKey: Option<string>)

  /** A persisted track record. */
  datatype Track = Track(url: string, tags: TagBundle, dateAdded: Option<Date>)

  /** One song of the device's media library: its asset url and its import date. */
  datatype MediaItem = MediaItem(assetUrl: string, dateAdded: Date)

  /** Some record of `s` has url `url`. */
  predicate HasUrl(s: seq<Track>, url: string)
  {
    exists i :: 0 <= i < |s| && s[i].url == url
  }

  /** No two records of `s` share a url. */
  predicate UniqueUrls(s: seq<Track>)
  {
    forall i, j :: 0 <= i < j < |s| ==> s[i].url != s[j].url
  }

  /** No url occurs twice in `urls`. */
  predicate Distinct(urls: seq<string>)
  {
    forall i, j :: 0 <= i < j < |urls| ==> urls[i] != urls[j]
  }

  /** Every url of prefix `s` stays present in any extension `t` of it. */
  lemma HasUrlExtends(s: seq<Track>, t: seq<Track>, url: string)
    requires |s| <= |t| && t[..|s|] == s
    requires HasUrl(s, url)
    ensures HasUrl(t, url)
  {
  }

  /**
    The record a fetch by url with limit 1 returns: a stored record with that
    url, or none when no record has it. The fetch requests no sort order; the
    model picks the first such record in insertion order.
   */
  function FirstWithUrl(s: seq<Track>, url: string): (r: Option<Track>)
    ensures r.None? <==> !HasUrl(s, url)
    ensures r.Some? ==>
              r.value.url == url &&
              (exists i :: 0 <= i < |s| && s[i] == r.value && forall j :: 0 <= j < i ==> s[j].url != url)
  {
    if s == [] then None
    else if s[0].url == url then Some(s[0])
    else
      var r := FirstWithUrl(s[1..], url);
      assert HasUrl(s[1..], url) ==> HasUrl(s, url) by {
        if HasUrl(s[1..], url) {
          var i :| 0 <= i < |s[1..]| && s[1..][i].url == url;
          assert s[i + 1].url == url;
        }
      }
      assert HasUrl(s, url) ==> HasUrl(s[1..], url) by {
        if HasUrl(s, url) {
          var i :| 0 <= i < |s| && s[i].url == url;
          assert i > 0 && s[1..][i - 1].url == url;
        }
      }
      if r.Some? then
        var i :| 0 <= i < |s[1..]| && s[1..][i] == r.value && forall j :: 0 <= j < i ==> s[1..][j].url != url;
        assert s[i + 1] == r.value;
        assert forall j :: 0 <= j < i + 1 ==> s[j].url != url by {
          forall j | 0 <= j < i + 1 ensures s[j].url != url {
            if j > 0 { assert s[j] == s[1..][j - 1]; }
          }
        }
        r
      else r
  }

  /** `s` with the first occurrence of `t` taken out; `s` itself when `t` does not occur. */
  function RemoveFirst(s: seq<Track>, t: Track): (r: seq<Track>)
    ensures t in s ==> multiset(r) == multiset(s) - multiset{t}
    ensures t !in s ==> r == s
  {
    if s == [] then []
    else if s[0] == t then
      assert s == [s[0]] + s[1..];
      s[1..]
    else
      assert s == [s[0]] + s[1..];
      [s[0]] + RemoveFirst(s[1..], t)
  }

  /**
    The record urlToTrack creates for `url`. Its tags come from `tagsOf`, which
    stands for the tag extraction urlToTrack performs; every caller in the
    view model overwrites its import date.
   */
  function UrlToTrack(url: string, tagsOf: string -> TagBundle): Track
  {
    Track(url, tagsOf(url), None)
  }

  /**
    One iteration of the library import: unless a record with the song's url
    exists, create one and date it by the song.
   */
  function MergeStep(s: seq<Track>, item: MediaItem, tagsOf: string -> TagBundle): (r: seq<Track>)
    ensures |r| == (if HasUrl(s, item.assetUrl) then |s| else |s| + 1)
    ensures r[..|s|] == s
    ensures HasUrl(r, item.assetUrl)
    ensures UniqueUrls(s) ==> UniqueUrls(r)
  {
    if HasUrl(s, item.assetUrl) then s
    else
      var r := s + [UrlToTrack(item.assetUrl, tagsOf).(dateAdded := Some(item.dateAdded))];
      assert r[|s|].url == item.assetUrl;
      r
  }

  /**
    The store after the library import has processed `items` in order,
    starting from `s`. Existing records stay as they were, in front; at most
    one record is appended per song.
   */
  function Merge(s: seq<Track>, items: seq<MediaItem>, tagsOf: string -> TagBundle): (r: seq<Track>)
    ensures |s| <= |r| <= |s| + |items|
    ensures r[..|s|] == s
    decreases |items|
  {
    if items == [] then s
    else MergeStep(Merge(s, items[..|items| - 1], tagsOf), items[|items| - 1], tagsOf)
  }

  /** `items[j]` is the first song in `items` with its url. */
  predicate FirstOccurrence(items: seq<MediaItem>, j: int)
  {
    0 <= j < |items| && forall j' :: 0 <= j' < j ==> items[j'].assetUrl != items[j].assetUrl
  }

  /** After the import, every song's url is in the store. */
  lemma {:induction false} MergeCovers(s: seq<Track>, items: seq<MediaItem>, tagsOf: string -> TagBundle)
    ensures forall j :: 0 <= j < |items| ==> HasUrl(Merge(s, items, tagsOf), items[j].assetUrl)
    decreases |items|
  {
    if items != [] {
      var p := items[..|items| - 1];
      var last := items[|items| - 1];
      var m := Merge(s, p, tagsOf);
      var r := Merge(s, items, tagsOf);
      MergeCovers(s, p, tagsOf);
      assert r[..|m|] == m;
      forall j | 0 <= j < |items| ensures HasUrl(r, items[j].assetUrl) {
        if j < |items| - 1 {
          assert items[j] == p[j];
          HasUrlExtends(m, r, items[j].assetUrl);
        } else if !HasUrl(m, last.assetUrl) {
          assert r[|m|].url == last.assetUrl;
        }
      }
    }
  }

  /** A song whose url is already stored adds nothing: importing only such songs leaves the store as it is. */
  lemma {:induction false} MergeOfStored(s: seq<Track>, items: seq<MediaItem>, tagsOf: string -> TagBundle)
    requires forall j :: 0 <= j < |items| ==> HasUrl(s, items[j].assetUrl)
    ensures Merge(s, items, tagsOf) == s
    decreases |items|
  {
    if items != [] {
      var p := items[..|items| - 1];
      forall j | 0 <= j < |p| ensures HasUrl(s, p[j].assetUrl) {
        assert p[j] == items[j];
      }
      MergeOfStored(s, p, tagsOf);
    }
  }

  /** Running the library import a second time on the same songs adds nothing. */
  lemma MergeIdempotent(s: seq<Track>, items: seq<MediaItem>, tagsOf: string -> TagBundle)
    ensures Merge(Merge(s, items, tagsOf), items, tagsOf) == Merge(s, items, tagsOf)
  {
    MergeCovers(s, items, tagsOf);
    MergeOfStored(Merge(s, items, tagsOf), items, tagsOf);
  }

  /** Unique urls stay unique through the import, even when a url occurs in several songs. */
  lemma {:induction false} MergeKeepsUrlsUnique(s: seq<Track>, items: seq<MediaItem>, tagsOf: string -> TagBundle)
    requires UniqueUrls(s)
    ensures UniqueUrls(Merge(s, items, tagsOf))
    decreases |items|
  {
    if items != [] {
      var p := items[..|items| - 1];
      var m := Merge(s, p, tagsOf);
      MergeKeepsUrlsUnique(s, p, tagsOf);
      var last := items[|items| - 1];
      if !HasUrl(m, last.assetUrl) {
        var r := m + [UrlToTrack(last.assetUrl, tagsOf).(dateAdded := Some(last.dateAdded))];
        forall i, j | 0 <= i < j < |r| ensures r[i].url != r[j].url {
          if j == |m| {
            assert r[i] == m[i];
          } else {
            assert r[i] == m[i] && r[j] == m[j];
          }
        }
      }
    }
  }

  /**
    Every appended record carries a url the store did not hold before, and
    comes from the first song with that url: that song's url, the url's tags
    and that song's import date.
   */
  lemma {:induction false} MergeNewRecords(s: seq<Track>, items: seq<MediaItem>, tagsOf: string -> TagBundle)
    ensures forall k :: |s| <= k < |Merge(s, items, tagsOf)| ==>
              !HasUrl(s, Merge(s, items, tagsOf)[k].url) &&
              exists j :: FirstOccurrence(items, j) &&
                Merge(s, items, tagsOf)[k].url == items[j].assetUrl &&
                Merge(s, items, tagsOf)[k].tags == tagsOf(items[j].assetUrl) &&
                Merge(s, items, tagsOf)[k].dateAdded == Some(items[j].dateAdded)
    decreases |items|
  {
    if items != [] {
      var n := |items|;
      var p := items[..n - 1];
      var m := Merge(s, p, tagsOf);
      var r := Merge(s, items, tagsOf);
      MergeNewRecords(s, p, tagsOf);
      forall k | |s| <= k < |r|
        ensures !HasUrl(s, r[k].url)
        ensures exists j :: FirstOccurrence(items, j) && r[k].url == items[j].assetUrl &&
                  r[k].tags == tagsOf(items[j].assetUrl) && r[k].dateAdded == Some(items[j].dateAdded)
      {
        if k < |m| {
          assert r[k] == m[k];
          var j :| FirstOccurrence(p, j) && m[k].url == p[j].assetUrl &&
                   m[k].tags == tagsOf(p[j].assetUrl) && m[k].dateAdded == Some(p[j].dateAdded);
          assert items[j] == p[j];
          assert forall j' :: 0 <= j' < j ==> items[j'] == p[j'];
          assert FirstOccurrence(items, j);
        } else {
          var last := items[n - 1];
          assert !HasUrl(m, last.assetUrl) && r[k] == UrlToTrack(last.assetUrl, tagsOf).(dateAdded := Some(last.dateAdded));
          if HasUrl(s, last.assetUrl) {
            HasUrlExtends(s, m, last.assetUrl);
          }
          MergeCovers(s, p, tagsOf);
          forall j' | 0 <= j' < n - 1 ensures items[j'].assetUrl != last.assetUrl {
            assert items[j'] == p[j'];
          }
          assert FirstOccurrence(items, n - 1);
        }
      }
    }
  }

  /** The appended records have pairwise different urls, whatever the store held before. */
  lemma {:induction false} MergeNewUrlsDistinct(s: seq<Track>, items: seq<MediaItem>, tagsOf: string -> TagBundle)
    ensures forall k1, k2 :: |s| <= k1 < k2 < |Merge(s, items, tagsOf)| ==>
              Merge(s, items, tagsOf)[k1].url != Merge(s, items, tagsOf)[k2].url
    decreases |items|
  {
    if items != [] {
      var p := items[..|items| - 1];
      var m := Merge(s, p, tagsOf);
      var r := Merge(s, items, tagsOf);
      MergeNewUrlsDistinct(s, p, tagsOf);
      forall k1, k2 | |s| <= k1 < k2 < |r| ensures r[k1].url != r[k2].url {
        assert r[k1] == m[k1];
        if k2 < |m| {
          assert r[k2] == m[k2];
        } else {
          assert !HasUrl(m, r[k2].url);
        }
      }
    }
  }

  /** A song whose url was not stored yields exactly one new record with that url. */
  lemma MergeExactlyOneNew(s: seq<Track>, items: seq<MediaItem>, tagsOf: string -> TagBundle, j: nat)
    requires j < |items| && !HasUrl(s, items[j].assetUrl)
    ensures exists k :: |s| <= k < |Merge(s, items, tagsOf)| && Merge(s, items, tagsOf)[k].url == items[j].assetUrl &&
              forall k' :: |s| <= k' < |Merge(s, items, tagsOf)| && Merge(s, items, tagsOf)[k'].url == items[j].assetUrl ==> k' == k
  {
    var r := Merge(s, items, tagsOf);
    var u := items[j].assetUrl;
    MergeCovers(s, items, tagsOf);
    MergeNewUrlsDistinct(s, items, tagsOf);
    var k :| 0 <= k < |r| && r[k].url == u;
    assert |s| <= k;
  }

  /**
    The store the bundled-file import leaves: one record per bundled url, in
    order, each dated by `fileDateAdded` of its url. No url is checked against
    another, so repeated urls give repeated records.
   */
  function BundledCatalog(urls: seq<string>, tagsOf: string -> TagBundle, fileDateAdded: string -> Option<Date>): (r: seq<Track>)
    ensures |r| == |urls|
    ensures forall i :: 0 <= i < |urls| ==>
              r[i].url == urls[i] && r[i].tags == tagsOf(urls[i]) && r[i].dateAdded == fileDateAdded(urls[i])
    decreases |urls|
  {
    if urls == [] then []
    else
      var url := urls[|urls| - 1];
      BundledCatalog(urls[..|urls| - 1], tagsOf, fileDateAdded) + [UrlToTrack(url, tagsOf).(dateAdded := fileDateAdded(url))]
  }

  /** The bundled catalog has unique urls exactly when the bundled urls are distinct. */
  lemma BundledUniqueIffDistinct(urls: seq<string>, tagsOf: string -> TagBundle, fileDateAdded: string -> Option<Date>)
    ensures UniqueUrls(BundledCatalog(urls, tagsOf, fileDateAdded)) <==> Distinct(urls)
  {
    var r := BundledCatalog(urls, tagsOf, fileDateAdded);
    if !Distinct(urls) {
      var i, j :| 0 <= i < j < |urls| && urls[i] == urls[j];
      assert r[i].url == r[j].url;
    }
  }

  /**
    The object store (the managed-object context). Records are values here;
    the model keeps them in insertion order, although a fetch without a sort
    order promises none.
   */
  class Context {
    var records: seq<Track>

    constructor (records: seq<Track>)
      ensures this.records == records
    {
      this.records := records;
    }

    /** Create a record and save it. */
    method Insert(t: Track)
      modifies this
      ensures records == old(records) + [t]
    {
      records := records + [t];
    }

    /** Delete one record. */
    method Delete(t: Track)
      modifies this
      ensures records == RemoveFirst(old(records), t)
    {
      records := RemoveFirst(records, t);
    }
  }
}
