/**
 * The sliding window of page-number links shown under every paginated list
 * (`get_page_list` in helpers.py). Given the paginator's page count and the
 * number of the page being shown, it lists at most ten consecutive page
 * numbers, keeping the current page near the middle once there are more than
 * ten pages.
 */
module Pagination {

  /** The numbers `range(lo, hi)` yields, in order (empty when lo >= hi). */
  function Range(lo: int, hi: int): seq<int>
    decreases hi - lo
  {
    if lo >= hi then [] else [lo] + Range(lo + 1, hi)
  }

  /** `range(lo, hi)` has hi - lo elements, the k-th being lo + k. */
  lemma {:induction false} RangeAt(lo: int, hi: int)
    ensures |Range(lo, hi)| == if lo <= hi then hi - lo else 0
    ensures forall k :: 0 <= k < |Range(lo, hi)| ==> Range(lo, hi)[k] == lo + k
    decreases hi - lo
  {
    if lo < hi {
      RangeAt(lo + 1, hi);
    }
  }

  /** A list holding lo, lo + 1, ..., hi - 1 in order is `range(lo, hi)`. */
  lemma {:induction false} IsRange(s: seq<int>, lo: int, hi: int)
    requires lo <= hi && |s| == hi - lo
    requires forall k :: 0 <= k < |s| ==> s[k] == lo + k
    ensures s == Range(lo, hi)
  {
    RangeAt(lo, hi);
  }

  /** First page of the window when there are more than ten pages. */
  function StartPage(numPages: int, current: int): int
  {
    if current <= 5 then 1
    else if current > numPages - 5 then numPages - 9
    else current - 5
  }

  /** The page list as the code computes it: the window opens above ten pages. */
  function PageList(numPages: nat, current: int): seq<int>
  {
    if numPages > 10 then Range(StartPage(numPages, current), StartPage(numPages, current) + 10)
    else Range(1, numPages + 1)
  }

  /**
   * The page list as the doc-comment of `get_page_list` states the rule: the
   * window opens from ten pages on.
   */
  function DocumentedPageList(numPages: nat, current: int): seq<int>
  {
    if numPages >= 10 then Range(StartPage(numPages, current), StartPage(numPages, current) + 10)
    else Range(1, numPages + 1)
  }

  /** `get_page_list`: builds the list by appending inside a loop over a range. */
  method GetPageList(numPages: nat, current: int) returns (pageList: seq<int>)
    ensures pageList == PageList(numPages, current)
  {
    pageList := [];
    if numPages > 10 {
      var startPage: int;
      if current <= 5 {
        startPage := 1;
      } else if current > numPages - 5 {
        startPage := numPages - 9;
      } else {
        startPage := current - 5;
      }
      for i := startPage to startPage + 10
        invariant |pageList| == i - startPage
        invariant forall k :: 0 <= k < |pageList| ==> pageList[k] == startPage + k
      {
        pageList := pageList + [i];
      }
      assert startPage == StartPage(numPages, current);
      IsRange(pageList, startPage, startPage + 10);
    } else {
      for i := 1 to numPages + 1
        invariant |pageList| == i - 1
        invariant forall k :: 0 <= k < |pageList| ==> pageList[k] == 1 + k
      {
        pageList := pageList + [i];
      }
      IsRange(pageList, 1, numPages + 1);
    }
  }

  /** With ten pages or fewer every page is listed, 1 to numPages; none when there are no pages. */
  lemma {:induction false} AllPagesWhenFew(numPages: nat, current: int)
    requires numPages <= 10
    ensures |PageList(numPages, current)| == numPages
    ensures forall k :: 0 <= k < numPages ==> PageList(numPages, current)[k] == k + 1
    ensures numPages == 0 ==> PageList(numPages, current) == []
  {
    RangeAt(1, numPages + 1);
  }

  /**
   * Above ten pages the window has exactly ten entries and starts by the
   * three-branch rule; in the middle case the current page sits at index 5.
   */
  lemma {:induction false} WindowWhenMany(numPages: nat, current: int)
    requires numPages > 10
    ensures |PageList(numPages, current)| == 10
    ensures current <= 5 ==> PageList(numPages, current)[0] == 1
    ensures 5 < current && numPages - 5 < current ==> PageList(numPages, current)[0] == numPages - 9
    ensures 5 < current <= numPages - 5 ==> PageList(numPages, current)[0] == current - 5
    ensures 5 < current <= numPages - 5 ==> PageList(numPages, current)[5] == current
  {
    var s := StartPage(numPages, current);
    RangeAt(s, s + 10);
  }

  /** The list never has more than ten entries. */
  lemma {:induction false} AtMostTen(numPages: nat, current: int)
    ensures |PageList(numPages, current)| <= 10
  {
    if numPages > 10 {
      WindowWhenMany(numPages, current);
    } else {
      AllPagesWhenFew(numPages, current);
    }
  }

  /** Consecutive entries differ by one, so the list is strictly ascending. */
  lemma {:induction false} Contiguous(numPages: nat, current: int)
    ensures forall k :: 0 < k < |PageList(numPages, current)| ==>
      PageList(numPages, current)[k] == PageList(numPages, current)[k - 1] + 1
    ensures forall i, j :: 0 <= i < j < |PageList(numPages, current)| ==>
      PageList(numPages, current)[i] < PageList(numPages, current)[j]
  {
    if numPages > 10 {
      var s := StartPage(numPages, current);
      RangeAt(s, s + 10);
    } else {
      RangeAt(1, numPages + 1);
    }
  }

  /** Every listed page exists: each entry lies in [1, numPages], whatever the current page. */
  lemma {:induction false} WithinPages(numPages: nat, current: int)
    ensures forall k :: 0 <= k < |PageList(numPages, current)| ==>
      1 <= PageList(numPages, current)[k] <= numPages
  {
    if numPages > 10 {
      var s := StartPage(numPages, current);
      RangeAt(s, s + 10);
    } else {
      RangeAt(1, numPages + 1);
    }
  }

  /** A valid current page is always among the links. */
  lemma {:induction false} CurrentPageShown(numPages: nat, current: int)
    requires 1 <= current <= numPages
    ensures current in PageList(numPages, current)
  {
    var r := PageList(numPages, current);
    if numPages > 10 {
      var s := StartPage(numPages, current);
      RangeAt(s, s + 10);
      assert r[current - s] == current;
    } else {
      RangeAt(1, numPages + 1);
      assert r[current - 1] == current;
    }
  }

  /** The three worked examples of the doc-comment, for sixteen pages. */
  lemma {:induction false} DocumentedExamples()
    ensures PageList(16, 5) == [1, 2, 3, 4, 5, 6, 7, 8, 9, 10]
    ensures PageList(16, 8) == [3, 4, 5, 6, 7, 8, 9, 10, 11, 12]
    ensures PageList(16, 15) == [7, 8, 9, 10, 11, 12, 13, 14, 15, 16]
  {
    RangeAt(1, 11);
    RangeAt(3, 13);
    RangeAt(7, 17);
  }

  /**
   * The doc-comment's "ten pages or more" and the code's "more than ten
   * pages" give the same list for every input: at ten pages the window
   * starts at 1 whichever page is current.
   */
  lemma {:induction false} DocumentedThresholdAgrees(numPages: nat, current: int)
    ensures DocumentedPageList(numPages, current) == PageList(numPages, current)
  {
    if numPages == 10 {
      assert StartPage(numPages, current) == 1;
    }
  }
}
