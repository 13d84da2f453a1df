/**
  The two "first matching tag" helpers of OpenTunes4/Utils.swift.

  An asset's metadata is a sequence of items. Filtering it by an identifier
  keeps the matching items in their original order; both helpers then look
  only at the first item of the filtered sequence.
 */
module Tags {
  import opened Wrappers

  type Identifier = string
  type Bytes = seq<bv8>

  /** One embedded tag: its identifier, its value as a string and its value as raw data. */
  datatype MetadataItem = MetadataItem(identifier: Identifier, stringValue: Option<string>, dataValue: Option<Bytes>)

  /** The image `getArtwork` hands back: the empty image, or one built from a tag's data. */
  datatype Image = EmptyImage | ImageFromData(data: Bytes)

  /** The framework identifier of the common artwork tag. */
  const CommonIdentifierArtwork: Identifier := "common/artwork"

  /** No item carries identifier `id`. */
  predicate NoMatch(items: seq<MetadataItem>, id: Identifier)
  {
    forall k :: 0 <= k < |items| ==> items[k].identifier != id
  }

  /** `items[k]` is the first item that carries identifier `id`. */
  predicate IsFirstMatch(items: seq<MetadataItem>, id: Identifier, k: int)
  {
    0 <= k < |items| && items[k].identifier == id &&
    forall j :: 0 <= j < k ==> items[j].identifier != id
  }

  /** The items that carry identifier `id`, in their original order. */
  function FilterByIdentifier(items: seq<MetadataItem>, id: Identifier): (r: seq<MetadataItem>)
    ensures |r| <= |items|
    ensures forall x :: x in r ==> x in items && x.identifier == id
    ensures forall k :: 0 <= k < |items| && items[k].identifier == id ==> items[k] in r
  {
    if items == [] then []
    else if items[0].identifier == id then [items[0]] + FilterByIdentifier(items[1..], id)
    else FilterByIdentifier(items[1..], id)
  }

  /** Filtering distributes over concatenation, so each part filters on its own. */
  lemma {:induction false} FilterConcat(a: seq<MetadataItem>, b: seq<MetadataItem>, id: Identifier)
    ensures FilterByIdentifier(a + b, id) == FilterByIdentifier(a, id) + FilterByIdentifier(b, id)
  {
    if a == [] {
      assert a + b == b;
    } else {
      assert (a + b)[1..] == a[1..] + b;
      FilterConcat(a[1..], b, id);
    }
  }

  /** The filtered sequence is empty exactly when nothing matches; otherwise it starts with the first match. */
  lemma {:induction false} FilterHead(items: seq<MetadataItem>, id: Identifier)
    ensures NoMatch(items, id) <==> FilterByIdentifier(items, id) == []
    ensures forall k :: IsFirstMatch(items, id, k) ==>
              FilterByIdentifier(items, id) != [] && FilterByIdentifier(items, id)[0] == items[k]
    ensures FilterByIdentifier(items, id) != [] ==> exists k :: IsFirstMatch(items, id, k)
  {
    if items == [] {
    } else if items[0].identifier == id {
      assert IsFirstMatch(items, id, 0);
      assert !NoMatch(items, id);
    } else {
      var rest := items[1..];
      FilterHead(rest, id);
      assert NoMatch(items, id) <==> NoMatch(rest, id) by {
        if NoMatch(rest, id) {
          forall k | 0 <= k < |items| ensures items[k].identifier != id {
            if k > 0 { assert items[k] == rest[k - 1]; }
          }
        }
        if NoMatch(items, id) {
          forall k | 0 <= k < |rest| ensures rest[k].identifier != id {
            assert rest[k] == items[k + 1];
          }
        }
      }
      forall k | IsFirstMatch(items, id, k)
        ensures FilterByIdentifier(items, id) != [] && FilterByIdentifier(items, id)[0] == items[k]
      {
        assert k > 0;
        assert IsFirstMatch(rest, id, k - 1);
      }
      if FilterByIdentifier(items, id) != [] {
        var k :| IsFirstMatch(rest, id, k);
        assert IsFirstMatch(items, id, k + 1);
      }
    }
  }

  /**
    getTagFilterByIdentifier: the string value of the first item that carries
    `id`, or the empty string when no item does. The result is nil only when
    the first match has no string value.
   */
  function GetTagFilterByIdentifier(items: seq<MetadataItem>, id: Identifier): (r: Option<string>)
    ensures NoMatch(items, id) ==> r == Some("")
    ensures forall k :: IsFirstMatch(items, id, k) ==> r == items[k].stringValue
    ensures r.None? ==> exists k :: IsFirstMatch(items, id, k) && items[k].stringValue.None?
  {
    FilterHead(items, id);
    var matches := FilterByIdentifier(items, id);
    if |matches| > 0 then matches[0].stringValue else Some("")
  }

  /**
    getArtwork: an image built from the data of the first artwork item, or the
    empty image when there is no artwork item or the first one has no data.
   */
  function GetArtwork(items: seq<MetadataItem>): (img: Image)
    ensures NoMatch(items, CommonIdentifierArtwork) ==> img == EmptyImage
    ensures forall k :: IsFirstMatch(items, CommonIdentifierArtwork, k) ==>
              img == (if items[k].dataValue.Some? then ImageFromData(items[k].dataValue.value) else EmptyImage)
  {
    FilterHead(items, CommonIdentifierArtwork);
    var matches := FilterByIdentifier(items, CommonIdentifierArtwork);
    var data := if |matches| > 0 then matches[0].dataValue else None;
    if data.Some? then ImageFromData(data.value) else EmptyImage
  }

  /** An item with a different identifier, wherever it stands, changes neither helper's result. */
  lemma {:induction false} OtherIdentifiersIgnored(a: seq<MetadataItem>, x: MetadataItem, b: seq<MetadataItem>, id: Identifier)
    requires x.identifier != id
    ensures GetTagFilterByIdentifier(a + [x] + b, id) == GetTagFilterByIdentifier(a + b, id)
    ensures id == CommonIdentifierArtwork ==> GetArtwork(a + [x] + b) == GetArtwork(a + b)
  {
    FilterConcat(a + [x], b, id);
    FilterConcat(a, [x], id);
    FilterConcat(a, b, id);
    assert FilterByIdentifier([x], id) == [] by {
      assert [x][1..] == [];
    }
    assert FilterByIdentifier(a + [x] + b, id) == FilterByIdentifier(a + b, id);
  }

  /** Once `a` holds a match, whatever follows it changes neither helper's result. */
  lemma {:induction false} LaterMatchesIgnored(a: seq<MetadataItem>, b: seq<MetadataItem>, id: Identifier)
    requires !NoMatch(a, id)
    ensures GetTagFilterByIdentifier(a + b, id) == GetTagFilterByIdentifier(a, id)
    ensures id == CommonIdentifierArtwork ==> GetArtwork(a + b) == GetArtwork(a)
  {
    FilterConcat(a, b, id);
    FilterHead(a, id);
    var fa := FilterByIdentifier(a, id);
    assert (fa + FilterByIdentifier(b, id))[0] == fa[0];
  }
}
