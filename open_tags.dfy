/** The parser's set of open contexts (`$opened`): a list of entries, each a
    tag with a payload (the header level, the list indentation width). */
module OpenTags {
  import opened Elements

  /** One entry of `$opened`. The source's payload is `null` for every tag but
      HEADER and UL; it is 0 here. The entry's constant `count` field is never
      read and is left out. */
  datatype OpenEntry = OpenEntry(tag: Tag, data: int)

  /** `is_tag_open`: some entry carries `tag`. */
  function IsTagOpen(entries: seq<OpenEntry>, tag: Tag): bool {
    if entries == [] then false
    else entries[0].tag == tag || IsTagOpen(entries[1..], tag)
  }

  /** `is_tag_open` is membership of the tag among the entries' tags. */
  lemma {:induction false} IsTagOpenMeans(entries: seq<OpenEntry>, tag: Tag)
    ensures IsTagOpen(entries, tag) <==> exists j :: 0 <= j < |entries| && entries[j].tag == tag
    decreases |entries|
  {
    if entries != [] {
      IsTagOpenMeans(entries[1..], tag);
      if IsTagOpen(entries[1..], tag) {
        var j :| 0 <= j < |entries[1..]| && entries[1..][j].tag == tag;
        assert entries[j + 1].tag == tag;
      }
      if exists j :: 0 <= j < |entries| && entries[j].tag == tag {
        var j :| 0 <= j < |entries| && entries[j].tag == tag;
        if j > 0 {
          assert entries[1..][j - 1].tag == tag;
        }
      }
    }
  }

  /** `set_tag_open`: append an entry unless the tag is already open. */
  function SetTagOpen(entries: seq<OpenEntry>, tag: Tag, data: int): seq<OpenEntry> {
    if IsTagOpen(entries, tag) then entries else entries + [OpenEntry(tag, data)]
  }

  /** The entries of `entries` whose tag satisfies `keep == (tag == t)`, in order
      (the `array_filter` behind `get_open_tags_by_type` and `unset_all_tags_open`). */
  function Filter(entries: seq<OpenEntry>, t: Tag, keep: bool): (r: seq<OpenEntry>)
    ensures |r| <= |entries|
  {
    if entries == [] then []
    else (if (entries[0].tag == t) == keep then [entries[0]] else []) + Filter(entries[1..], t, keep)
  }

  /** The filter keeps exactly the entries whose tag test comes out as `keep`. */
  lemma {:induction false} FilterMembers(entries: seq<OpenEntry>, t: Tag, keep: bool)
    ensures forall e :: e in Filter(entries, t, keep) <==> e in entries && (e.tag == t) == keep
    decreases |entries|
  {
    if entries != [] {
      FilterMembers(entries[1..], t, keep);
      assert entries == [entries[0]] + entries[1..];
    }
  }

  /** `get_open_tags_by_type`. */
  function GetOpenTagsByType(entries: seq<OpenEntry>, tag: Tag): seq<OpenEntry> {
    Filter(entries, tag, true)
  }

  /** `unset_all_tags_open`. */
  function UnsetAllTagsOpen(entries: seq<OpenEntry>, tag: Tag): seq<OpenEntry> {
    Filter(entries, tag, false)
  }

  /** At most one entry per tag: the invariant `set_tag_open` keeps. */
  predicate AtMostOnePerTag(entries: seq<OpenEntry>) {
    forall j, k :: 0 <= j < k < |entries| ==> entries[j].tag != entries[k].tag
  }

  /** The payload of the open HEADER entry, which `parse` reads when a line end
      closes the header (`array_shift` of `get_open_tags_by_type`; 0 if none). */
  function HeaderData(entries: seq<OpenEntry>): int {
    var hs := GetOpenTagsByType(entries, Header);
    if hs == [] then 0 else hs[0].data
  }

  /** Opening an open tag changes nothing; otherwise exactly that tag becomes
      open, the others keep their state, and there is still one entry per tag. */
  lemma SetTagOpenEffect(entries: seq<OpenEntry>, tag: Tag, data: int)
    requires AtMostOnePerTag(entries)
    ensures IsTagOpen(entries, tag) ==> SetTagOpen(entries, tag, data) == entries
    ensures AtMostOnePerTag(SetTagOpen(entries, tag, data))
    ensures forall u :: IsTagOpen(SetTagOpen(entries, tag, data), u) <==> IsTagOpen(entries, u) || u == tag
  {
    var r := SetTagOpen(entries, tag, data);
    IsTagOpenMeans(entries, tag);
    forall u ensures IsTagOpen(r, u) <==> IsTagOpen(entries, u) || u == tag {
      IsTagOpenMeans(r, u);
      IsTagOpenMeans(entries, u);
      if !IsTagOpen(entries, tag) {
        assert r[|entries|].tag == tag;
        if IsTagOpen(entries, u) {
          var j :| 0 <= j < |entries| && entries[j].tag == u;
          assert r[j] == entries[j];
        }
      }
    }
  }

  /** Opening twice is opening once. */
  lemma SetTagOpenIdempotent(entries: seq<OpenEntry>, tag: Tag, d1: int, d2: int)
    ensures SetTagOpen(SetTagOpen(entries, tag, d1), tag, d2) == SetTagOpen(entries, tag, d1)
  {
    var r := SetTagOpen(entries, tag, d1);
    IsTagOpenMeans(r, tag);
    if !IsTagOpen(entries, tag) {
      assert r[|entries|].tag == tag;
    }
  }

  /** The filter keeps the relative order of the entries it keeps, so it keeps
      the one-entry-per-tag invariant. */
  lemma {:induction false} FilterKeepsAtMostOne(entries: seq<OpenEntry>, t: Tag, keep: bool)
    requires AtMostOnePerTag(entries)
    ensures AtMostOnePerTag(Filter(entries, t, keep))
    decreases |entries|
  {
    if entries != [] {
      var tail := entries[1..];
      assert AtMostOnePerTag(tail) by {
        forall j, k | 0 <= j < k < |tail| ensures tail[j].tag != tail[k].tag {
          assert tail[j] == entries[j + 1] && tail[k] == entries[k + 1];
        }
      }
      FilterKeepsAtMostOne(tail, t, keep);
      FilterMembers(tail, t, keep);
      var rest := Filter(tail, t, keep);
      var head := if (entries[0].tag == t) == keep then [entries[0]] else [];
      var r := head + rest;
      forall j, k | 0 <= j < k < |r| ensures r[j].tag != r[k].tag {
        if head != [] && j == 0 {
          assert r[k] in rest;
          assert r[k] in tail;
          var m :| 0 <= m < |tail| && tail[m] == r[k];
          assert entries[m + 1] == r[k];
        } else {
          assert r[j] == rest[j - |head|] && r[k] == rest[k - |head|];
        }
      }
    }
  }

  /** `unset_all_tags_open` closes exactly `tag`: it removes the entries of that
      tag and keeps every other entry. */
  lemma UnsetAllTagsOpenEffect(entries: seq<OpenEntry>, tag: Tag)
    requires AtMostOnePerTag(entries)
    ensures AtMostOnePerTag(UnsetAllTagsOpen(entries, tag))
    ensures forall e :: e in UnsetAllTagsOpen(entries, tag) <==> e in entries && e.tag != tag
    ensures forall u :: IsTagOpen(UnsetAllTagsOpen(entries, tag), u) <==> IsTagOpen(entries, u) && u != tag
  {
    FilterKeepsAtMostOne(entries, tag, false);
    UnsetAllTagsOpenCloses(entries, tag);
  }

  /** The same without the one-entry-per-tag assumption. */
  lemma UnsetAllTagsOpenCloses(entries: seq<OpenEntry>, tag: Tag)
    ensures forall e :: e in UnsetAllTagsOpen(entries, tag) <==> e in entries && e.tag != tag
    ensures forall u :: IsTagOpen(UnsetAllTagsOpen(entries, tag), u) <==> IsTagOpen(entries, u) && u != tag
  {
    FilterMembers(entries, tag, false);
    var r := UnsetAllTagsOpen(entries, tag);
    forall u ensures IsTagOpen(r, u) <==> IsTagOpen(entries, u) && u != tag {
      IsTagOpenMeans(r, u);
      IsTagOpenMeans(entries, u);
      if IsTagOpen(entries, u) && u != tag {
        var j :| 0 <= j < |entries| && entries[j].tag == u;
        assert entries[j] in r;
      }
      if IsTagOpen(r, u) {
        var j :| 0 <= j < |r| && r[j].tag == u;
        assert r[j] in entries;
      }
    }
  }

  /** With one entry per tag, the header level read at a line end is the payload
      of the one open HEADER entry. */
  lemma HeaderDataIsOpenHeader(entries: seq<OpenEntry>)
    requires AtMostOnePerTag(entries) && IsTagOpen(entries, Header)
    ensures exists j :: 0 <= j < |entries| && entries[j] == OpenEntry(Header, HeaderData(entries))
    ensures |GetOpenTagsByType(entries, Header)| == 1
  {
    var hs := GetOpenTagsByType(entries, Header);
    IsTagOpenMeans(entries, Header);
    FilterMembers(entries, Header, true);
    var j :| 0 <= j < |entries| && entries[j].tag == Header;
    assert entries[j] in hs;
    assert hs[0] in entries;
    KeptAtMostOnce(entries, Header);
  }

  lemma {:induction false} KeptAtMostOnce(entries: seq<OpenEntry>, t: Tag)
    requires AtMostOnePerTag(entries)
    ensures |Filter(entries, t, true)| <= 1
    decreases |entries|
  {
    if entries != [] {
      var tail := entries[1..];
      assert AtMostOnePerTag(tail) by {
        forall j, k | 0 <= j < k < |tail| ensures tail[j].tag != tail[k].tag {
          assert tail[j] == entries[j + 1] && tail[k] == entries[k + 1];
        }
      }
      KeptAtMostOnce(tail, t);
      if entries[0].tag == t {
        forall m | 0 <= m < |tail| ensures tail[m].tag != t {
          assert tail[m] == entries[m + 1];
        }
        FilterNone(tail, t);
      }
    }
  }

  lemma {:induction false} FilterNone(entries: seq<OpenEntry>, t: Tag)
    requires forall m :: 0 <= m < |entries| ==> entries[m].tag != t
    ensures Filter(entries, t, true) == []
    decreases |entries|
  {
    if entries != [] {
      FilterNone(entries[1..], t);
    }
  }
}
