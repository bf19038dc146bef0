/** The trend dashboard (components/Dashboard.tsx): a fixed list of trending
    products shown eight to a page, with previous/next buttons and one button
    per page. */
module Dashboard {
  import opened Wrappers
  import opened Types

  /** Line 41. */
  const ItemsPerPage: nat := 8

  function Trend(id: string, name: string, growth: int, volume: int, category: string, picture: string): TrendItem
  {
    TrendItem(id, name, growth, volume, category, "https://picsum.photos/id/" + picture + "/300/300", Some(TrendIdle))
  }

  /** Lines 7-25: sixteen entries with ids "1" to "16", all idle. */
  function InitialTrends(): (r: seq<TrendItem>)
    ensures |r| == 16
    ensures forall i :: 0 <= i < |r| ==> r[i].status == Some(TrendIdle)
  {
    [ Trend("1", "Portable Neck Fan", 145, 12500, "Electronics", "1"),
      Trend("2", "Mushroom Lamp", 89, 8400, "Home Decor", "20"),
      Trend("3", "Weighted Blanket", 67, 45000, "Bedding", "30"),
      Trend("4", "Ceramic Matcha Set", 210, 6200, "Kitchen", "40"),
      Trend("5", "Smart Garden System", 320, 18000, "Garden", "50"),
      Trend("6", "Galaxy Projector", 155, 22000, "Electronics", "60"),
      Trend("7", "Minimalist Desk Mat", 95, 15600, "Office", "70"),
      Trend("8", "Portable Espresso", 180, 9800, "Kitchen", "80"),
      Trend("9", "Levitating Plant Pot", 400, 8200, "Home Decor", "90"),
      Trend("10", "Sunset Lamp", 120, 34000, "Lighting", "100"),
      Trend("11", "Cordless Air Duster", 250, 11000, "Electronics", "110"),
      Trend("12", "Vegetable Chopper", 85, 55000, "Kitchen", "120"),
      Trend("13", "Cat Water Fountain", 130, 21000, "Pets", "130"),
      Trend("14", "Shower Phone Holder", 190, 14500, "Bathroom", "140"),
      Trend("15", "Digital Spoon Scale", 110, 7600, "Kitchen", "150"),
      Trend("16", "Portable Blender", 95, 48000, "Appliances", "160") ]
  }

  /** Line 48: the number of pages, ⌈len / 8⌉. */
  function TotalPages(len: nat): (r: nat)
    ensures r * ItemsPerPage >= len
    ensures r > 0 ==> (r - 1) * ItemsPerPage < len
  {
    (len + ItemsPerPage - 1) / ItemsPerPage
  }

  /** An index as `Array.prototype.slice` reads it: negative counts from the
      end, and the result is clamped to 0..len. */
  function SliceIndex(len: nat, k: int): (r: nat)
    ensures r <= len
    ensures 0 <= k <= len ==> r == k
    ensures k > len ==> r == len
    ensures k < 0 ==> r == if len + k < 0 then 0 else len + k
  {
    if k < 0 then (if len + k < 0 then 0 else len + k) else if k > len then len else k
  }

  /** `s.slice(start, end)`: the entries from the clamped start up to the
      clamped end, none when the bounds cross. */
  function Slice<T>(s: seq<T>, start: int, end: int): (r: seq<T>)
    ensures var i, j := SliceIndex(|s|, start), SliceIndex(|s|, end);
      |r| == (if i <= j then j - i else 0)
    ensures forall k :: 0 <= k < |r| ==> r[k] == s[SliceIndex(|s|, start) + k]
  {
    var i := SliceIndex(|s|, start);
    var j := SliceIndex(|s|, end);
    if i <= j then s[i..j] else []
  }

  /** Two adjacent slices make up the slice that spans both. */
  lemma SliceConcat<T>(s: seq<T>, a: int, b: int, c: int)
    requires 0 <= a <= b <= c
    ensures Slice(s, a, b) + Slice(s, b, c) == Slice(s, a, c)
  {
  }

  function Min(a: int, b: int): int
  {
    if a <= b then a else b
  }

  /** Lines 49-50: the entries shown on page `page` (1-based). For any page
      from 1 on that is entries (page-1)*8 up to page*8, cut at the end of the
      list: never more than eight. */
  function Page<T>(items: seq<T>, page: int): (r: seq<T>)
    ensures |r| <= ItemsPerPage
    ensures page >= 1 ==>
      r == items[Min((page - 1) * ItemsPerPage, |items|)..Min(page * ItemsPerPage, |items|)]
  {
    var startIndex := (page - 1) * ItemsPerPage;
    Slice(items, startIndex, startIndex + ItemsPerPage)
  }

  /** Every page from 1 to the last holds between one and eight entries. */
  lemma PageNotEmpty<T>(items: seq<T>, page: int)
    requires 1 <= page <= TotalPages(|items|)
    ensures 1 <= |Page(items, page)| <= ItemsPerPage
  {
  }

  /** Pages 1 .. k, one after the other. */
  function PagesUpTo<T>(items: seq<T>, k: nat): seq<T>
  {
    if k == 0 then [] else PagesUpTo(items, k - 1) + Page(items, k)
  }

  /** The first k pages are the first 8k entries (or all of them). */
  lemma {:induction false} PagesUpToPrefix<T>(items: seq<T>, k: nat)
    ensures PagesUpTo(items, k) == items[..Min(k * ItemsPerPage, |items|)]
  {
    if k > 0 {
      PagesUpToPrefix(items, k - 1);
      var a := Min((k - 1) * ItemsPerPage, |items|);
      var b := Min(k * ItemsPerPage, |items|);
      assert items[..a] + items[a..b] == items[..b];
    }
  }

  /** Reading pages 1 to the last in order shows every entry once, in order. */
  lemma PagesCoverAll<T>(items: seq<T>)
    ensures PagesUpTo(items, TotalPages(|items|)) == items
  {
    PagesUpToPrefix(items, TotalPages(|items|));
    assert items[..|items|] == items;
  }

  /** For the sixteen initial trends: two full pages of eight. */
  lemma InitialPages()
    ensures TotalPages(|InitialTrends()|) == 2
    ensures Page(InitialTrends(), 1) == InitialTrends()[..8]
    ensures Page(InitialTrends(), 2) == InitialTrends()[8..]
  {
  }

  /** The dashboard's pager. The trend list has no setter, so it is a constant. */
  class TrendBoard {
    const trends: seq<TrendItem>
    var currentPage: int

    /** The page is between 1 and the last page (1 when there are no entries). */
    predicate Valid()
      reads this
    {
      1 <= currentPage && (currentPage == 1 || currentPage <= TotalPages(|trends|))
    }

    /** Lines 44-45: the initial trends, page 1. */
    constructor()
      ensures trends == InitialTrends() && currentPage == 1 && Valid()
    {
      trends := InitialTrends();
      currentPage := 1;
    }

    /** Line 50: the entries on the current page. */
    function CurrentTrends(): (r: seq<TrendItem>)
      reads this
      requires Valid()
      ensures |r| <= ItemsPerPage
      ensures trends != [] ==> r != []
      ensures r == trends[Min((currentPage - 1) * ItemsPerPage, |trends|)..Min(currentPage * ItemsPerPage, |trends|)]
    {
      if trends == [] then Page(trends, currentPage)
      else
        PageNotEmpty(trends, currentPage);
        Page(trends, currentPage)
    }

    /** Lines 52-54: one page on, unless already on the last. */
    method Next()
      requires Valid()
      modifies this`currentPage
      ensures Valid()
      ensures currentPage == if old(currentPage) < TotalPages(|trends|) then old(currentPage) + 1 else old(currentPage)
    {
      if currentPage < TotalPages(|trends|) {
        currentPage := currentPage + 1;
      }
    }

    /** Lines 56-58: one page back, unless already on the first. */
    method Prev()
      requires Valid()
      modifies this`currentPage
      ensures Valid()
      ensures currentPage == if old(currentPage) > 1 then old(currentPage) - 1 else old(currentPage)
    {
      if currentPage > 1 {
        currentPage := currentPage - 1;
      }
    }

    /** Lines 157-160: the button at position `idx` (one per page) opens page idx + 1. */
    method GoTo(idx: nat)
      requires idx < TotalPages(|trends|)
      modifies this`currentPage
      ensures Valid() && currentPage == idx + 1
    {
      currentPage := idx + 1;
    }
  }
}
