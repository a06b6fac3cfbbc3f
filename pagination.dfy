/**
 * Client-side pagination shared by the schedule, attendance and plan report
 * tables: fifteen rows per page, at least one page, a window of at most five
 * numbered buttons and a shortcut to the last page.
 */
module Pagination {
  /** `itemsPerPage`. */
  const PageSize: nat := 15

  /** `Math.max(1, Math.ceil(totalItems / itemsPerPage))`. */
  function TotalPages(n: nat): (t: nat)
    ensures t >= 1
    ensures n == 0 ==> t == 1
    ensures n <= t * PageSize
    ensures n == 0 || (t - 1) * PageSize < n
  {
    if n == 0 then 1 else (n + PageSize - 1) / PageSize
  }

  /** `(currentPage - 1) * itemsPerPage`. */
  function StartIndex(page: nat): nat
    requires page >= 1
  {
    (page - 1) * PageSize
  }

  /**
   * `filtered.slice(startIndex, Math.min(startIndex + itemsPerPage, totalItems))`:
   * a slice whose start lies past its end is empty.
   */
  function PageItems<T>(s: seq<T>, page: nat): (r: seq<T>)
    requires page >= 1
    ensures |r| <= PageSize
    ensures |r| > 0 ==> StartIndex(page) + |r| <= |s|
    ensures forall i :: 0 <= i < |r| ==> r[i] == s[StartIndex(page) + i]
    ensures page <= TotalPages(|s|) && |s| > 0 ==> |r| > 0
    ensures page < TotalPages(|s|) ==> |r| == PageSize
    ensures page > TotalPages(|s|) ==> r == []
  {
    var start := StartIndex(page);
    var end := if start + PageSize < |s| then start + PageSize else |s|;
    var t := TotalPages(|s|);
    assert page < t ==> start + PageSize <= (t - 1) * PageSize < |s|;
    assert page <= t && |s| > 0 ==> start <= (t - 1) * PageSize < |s|;
    assert page > t ==> start >= t * PageSize >= |s|;
    if start <= end then s[start..end] else []
  }

  /** The rows of pages `1..k` in order. */
  function FirstPages<T>(s: seq<T>, k: nat): seq<T>
  {
    if k == 0 then [] else FirstPages(s, k - 1) + PageItems(s, k)
  }

  lemma {:induction false} FirstPagesArePrefix<T>(s: seq<T>, k: nat)
    requires k <= TotalPages(|s|)
    ensures FirstPages(s, k) == s[..if k * PageSize < |s| then k * PageSize else |s|]
  {
    if k > 0 {
      FirstPagesArePrefix(s, k - 1);
      var lo := (k - 1) * PageSize;
      var hi := if k * PageSize < |s| then k * PageSize else |s|;
      var t := TotalPages(|s|);
      assert lo <= |s| by {
        if |s| > 0 {
          assert (t - 1) * PageSize < |s|;
          assert lo <= (t - 1) * PageSize;
        }
      }
      assert PageItems(s, k) == s[lo..hi];
      assert s[..lo] + s[lo..hi] == s[..hi];
    }
  }

  /** Reading every page in order yields every row exactly once, in order. */
  lemma PagesCoverAll<T>(s: seq<T>)
    ensures FirstPages(s, TotalPages(|s|)) == s
  {
    FirstPagesArePrefix(s, TotalPages(|s|));
    assert s[..|s|] == s;
  }

  /**
   * The `i`-th numbered button: the first five pages near the start, the last
   * five near the end, otherwise the current page with two neighbours each side.
   */
  function StripEntry(current: int, total: nat, i: nat): int
  {
    if total <= 5 then i + 1
    else if current <= 3 then i + 1
    else if current >= total - 2 then total - 4 + i
    else current - 2 + i
  }

  /** `Array.from({ length: Math.min(5, totalPages) }, …)` — the numbered buttons. */
  function PageStrip(current: int, total: nat): (r: seq<int>)
    requires total >= 1
    ensures |r| == if total < 5 then total else 5
    ensures forall i :: 0 <= i < |r| ==> 1 <= r[i] <= total
    ensures forall i :: 0 < i < |r| ==> r[i] == r[i - 1] + 1
    ensures total > 5 && 3 < current < total - 2 ==> r[0] == current - 2 && r[2] == current && r[4] == current + 2
  {
    seq(if total < 5 then total else 5, i requires 0 <= i => StripEntry(current, total, i))
  }

  /** The current page, when it is a real page, always has its own button. */
  lemma StripContainsCurrent(current: int, total: nat)
    requires 1 <= current <= total
    ensures current in PageStrip(current, total)
  {
    var r := PageStrip(current, total);
    var i := if total <= 5 || current <= 3 then current - 1
             else if current >= total - 2 then current - (total - 4)
             else 2;
    assert r[i] == current;
  }

  /** `totalPages > 5 && currentPage < totalPages - 2`: the "… N" shortcut. */
  predicate ShowLastShortcut(current: int, total: nat) {
    total > 5 && current < total - 2
  }

  /** The shortcut to the last page is shown exactly when the last page has no numbered button. */
  lemma ShortcutIffLastHidden(current: int, total: nat)
    requires current >= 1 && total >= 1
    ensures ShowLastShortcut(current, total) <==> total !in PageStrip(current, total)
  {
    var r := PageStrip(current, total);
    if !ShowLastShortcut(current, total) {
      assert r[|r| - 1] == total;
    } else {
      assert r[4] < total;
    }
  }

  /** `prev => Math.max(prev - 1, 1)`. */
  function PrevPage(page: int): (r: int)
    ensures r >= 1
    ensures page > 1 ==> r == page - 1
    ensures page <= 1 ==> r == 1
  {
    if page - 1 > 1 then page - 1 else 1
  }

  /** `prev => Math.min(prev + 1, totalPages)`. */
  function NextPage(page: int, total: nat): (r: int)
    ensures r <= total
    ensures page < total ==> r == page + 1
    ensures page >= total ==> r == total
  {
    if page + 1 < total then page + 1 else total
  }
}
