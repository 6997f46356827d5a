/**
 * `_collect_bundles`: the `*.bundle` files of the asset directory in sorted
 * order, split by name into script bundles and voice bundles, and the fixed
 * name of the speaker-name bundle.
 */
module Bundles {
  import opened Wrappers
  import opened Text
  import opened Assets

  const BundleSuffix: string := ".bundle"
  const TextBundleMarker: string := "general-localization-zhhans-scripts-"
  const VoiceBundleMarker: string := "general-voice-"
  const CharNamesBundleName: string := "general-localization-zhhans-text_assets_all.bundle"

  /** `s.endswith(suffix)`. */
  predicate EndsWith(s: string, suffix: string) {
    |suffix| <= |s| && s[|s| - |suffix|..] == suffix
  }

  /** Python's `<=` on strings: lexicographic by code point. */
  predicate LexLe(a: string, b: string) {
    a == [] || (b != [] && (a[0] < b[0] || (a[0] == b[0] && LexLe(a[1..], b[1..]))))
  }

  /** Any two strings are ordered one way or the other. */
  lemma {:induction false} LexLeTotal(a: string, b: string)
    ensures LexLe(a, b) || LexLe(b, a)
  {
    if a != [] && b != [] && a[0] == b[0] {
      LexLeTotal(a[1..], b[1..]);
    }
  }

  /** The order is transitive. */
  lemma {:induction false} LexLeTrans(a: string, b: string, c: string)
    requires LexLe(a, b) && LexLe(b, c)
    ensures LexLe(a, c)
  {
    if a != [] && a[0] == b[0] && b[0] == c[0] {
      LexLeTrans(a[1..], b[1..], c[1..]);
    }
  }

  /** Every bundle comes no later in name order than every bundle after it. */
  predicate SortedByName(bs: seq<Bundle>) {
    forall i, j :: 0 <= i < j < |bs| ==> LexLe(bs[i].name, bs[j].name)
  }

  /** Insert `b` before the first bundle it does not come after. */
  function InsertByName(b: Bundle, bs: seq<Bundle>): (r: seq<Bundle>)
    ensures multiset(r) == multiset(bs) + multiset{b}
  {
    if |bs| == 0 then [b]
    else if LexLe(b.name, bs[0].name) then [b] + bs
    else
      assert bs == [bs[0]] + bs[1..];
      [bs[0]] + InsertByName(b, bs[1..])
  }

  /** `sorted()` of the globbed paths: here an insertion sort on the file names. */
  function SortByName(bs: seq<Bundle>): (r: seq<Bundle>)
    ensures multiset(r) == multiset(bs)
  {
    if |bs| == 0 then []
    else
      assert bs == [bs[0]] + bs[1..];
      InsertByName(bs[0], SortByName(bs[1..]))
  }

  /** Inserting into a sorted list keeps it sorted. */
  lemma {:induction false} InsertSorted(b: Bundle, bs: seq<Bundle>)
    requires SortedByName(bs)
    ensures SortedByName(InsertByName(b, bs))
    decreases |bs|
  {
    if |bs| > 0 {
      if LexLe(b.name, bs[0].name) {
        InsertFront(b, bs);
      } else {
        LexLeTotal(b.name, bs[0].name);
        InsertSorted(b, bs[1..]);
        InsertBehind(b, bs);
      }
    }
  }

  /** A bundle placed before the head of a sorted list comes before all of it. */
  lemma InsertFront(b: Bundle, bs: seq<Bundle>)
    requires SortedByName(bs) && |bs| > 0 && LexLe(b.name, bs[0].name)
    ensures SortedByName([b] + bs)
  {
    var r := [b] + bs;
    forall i, j | 0 <= i < j < |r| ensures LexLe(r[i].name, r[j].name) {
      if i == 0 && j > 1 {
        LexLeTrans(b.name, bs[0].name, bs[j - 1].name);
      }
    }
  }

  /** The bundles after insertion are `b` and the bundles already there. */
  lemma {:induction false} InsertMembers(b: Bundle, bs: seq<Bundle>)
    ensures forall x :: x in InsertByName(b, bs) <==> x == b || x in bs
    decreases |bs|
  {
    if |bs| > 0 && !LexLe(b.name, bs[0].name) {
      InsertMembers(b, bs[1..]);
      assert bs == [bs[0]] + bs[1..];
    }
  }

  /** The head of a sorted list stays first when `b`, which comes after it, is inserted into the rest. */
  lemma InsertBehind(b: Bundle, bs: seq<Bundle>)
    requires SortedByName(bs) && |bs| > 0 && LexLe(bs[0].name, b.name)
    requires SortedByName(InsertByName(b, bs[1..]))
    ensures SortedByName([bs[0]] + InsertByName(b, bs[1..]))
  {
    var tail := InsertByName(b, bs[1..]);
    InsertMembers(b, bs[1..]);
    forall x | x in tail ensures LexLe(bs[0].name, x.name) {
      if x != b {
        var k :| 0 <= k < |bs[1..]| && bs[1..][k] == x;
        assert bs[k + 1] == x;
      }
    }
    HeadBeforeSorted(bs[0], tail);
  }

  /** A bundle that comes before every member of a sorted list can head it. */
  lemma HeadBeforeSorted(h: Bundle, tail: seq<Bundle>)
    requires SortedByName(tail)
    requires forall x :: x in tail ==> LexLe(h.name, x.name)
    ensures SortedByName([h] + tail)
  {
    var r := [h] + tail;
    forall i, j | 0 <= i < j < |r| ensures LexLe(r[i].name, r[j].name) {
      assert r[j] == tail[j - 1];
      if i > 0 {
        assert r[i] == tail[i - 1];
      }
    }
  }

  /** The sort orders by name and is a permutation of its input. */
  lemma {:induction false} SortByNameSorted(bs: seq<Bundle>)
    ensures SortedByName(SortByName(bs)) && multiset(SortByName(bs)) == multiset(bs)
    decreases |bs|
  {
    if |bs| > 0 {
      SortByNameSorted(bs[1..]);
      InsertSorted(bs[0], SortByName(bs[1..]));
    }
  }

  /** `[p for p in bundles if marker in p.name]`. */
  function NamedWith(bs: seq<Bundle>, marker: string): (r: seq<Bundle>)
    ensures forall b :: b in r <==> b in bs && Contains(b.name, marker)
  {
    if |bs| == 0 then []
    else if Contains(bs[0].name, marker) then [bs[0]] + NamedWith(bs[1..], marker)
    else NamedWith(bs[1..], marker)
  }

  /** Filtering a sorted list keeps it sorted. */
  lemma {:induction false} NamedWithSorted(bs: seq<Bundle>, marker: string)
    requires SortedByName(bs)
    ensures SortedByName(NamedWith(bs, marker))
    decreases |bs|
  {
    if |bs| > 0 {
      NamedWithSorted(bs[1..], marker);
      var tail := NamedWith(bs[1..], marker);
      if Contains(bs[0].name, marker) {
        forall x | x in tail ensures LexLe(bs[0].name, x.name) {
          var k :| 0 <= k < |bs[1..]| && bs[1..][k] == x;
          assert bs[k + 1] == x;
        }
        HeadBeforeSorted(bs[0], tail);
      }
    }
  }

  /** `asset_root.glob("*.bundle")`: the files whose name ends in `.bundle`. */
  function Globbed(listing: seq<Bundle>): (r: seq<Bundle>)
    ensures forall b :: b in r <==> b in listing && EndsWith(b.name, BundleSuffix)
  {
    if |listing| == 0 then []
    else if EndsWith(listing[0].name, BundleSuffix) then [listing[0]] + Globbed(listing[1..])
    else Globbed(listing[1..])
  }

  /** The sorted bundle list of an asset directory. */
  function SortedBundles(listing: seq<Bundle>): seq<Bundle> {
    SortByName(Globbed(listing))
  }

  /** The script bundles, in sorted order. */
  function TextBundles(listing: seq<Bundle>): seq<Bundle> {
    NamedWith(SortedBundles(listing), TextBundleMarker)
  }

  /** The voice bundles, in sorted order. */
  function VoiceBundles(listing: seq<Bundle>): seq<Bundle> {
    NamedWith(SortedBundles(listing), VoiceBundleMarker)
  }

  /**
   * The script and voice lists are sorted by name and hold exactly the
   * `*.bundle` files of the directory whose name contains the marker.
   */
  lemma CollectedBundles(listing: seq<Bundle>)
    ensures SortedByName(TextBundles(listing)) && SortedByName(VoiceBundles(listing))
    ensures forall b :: b in TextBundles(listing) <==>
      b in listing && EndsWith(b.name, BundleSuffix) && Contains(b.name, TextBundleMarker)
    ensures forall b :: b in VoiceBundles(listing) <==>
      b in listing && EndsWith(b.name, BundleSuffix) && Contains(b.name, VoiceBundleMarker)
  {
    var sorted := SortedBundles(listing);
    SortByNameSorted(Globbed(listing));
    NamedWithSorted(sorted, TextBundleMarker);
    NamedWithSorted(sorted, VoiceBundleMarker);
    forall b ensures b in sorted <==> b in Globbed(listing) {
      assert b in sorted <==> b in multiset(sorted);
      assert b in Globbed(listing) <==> b in multiset(Globbed(listing));
    }
  }

  /** `char_name_bundle` when `char_name_bundle.exists()`: the file of that exact name. */
  function CharNamesBundle(listing: seq<Bundle>): (r: Option<Bundle>)
    ensures r.Some? <==> exists b :: b in listing && b.name == CharNamesBundleName
    ensures r.Some? ==> r.value in listing && r.value.name == CharNamesBundleName
  {
    if |listing| == 0 then None
    else if listing[0].name == CharNamesBundleName then Some(listing[0])
    else CharNamesBundle(listing[1..])
  }
}
