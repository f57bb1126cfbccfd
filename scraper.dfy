/**
 * utils/scraper_service.py: turning an app URL into a Play-Store package name
 * and keeping, from an already-fetched batch of reviews, those of one day.
 */
module Scraper {
  import opened Wrappers
  import opened AnalysisState

  /** A review as the Play-Store client returns it; `at` is the day of its timestamp. */
  datatype PlayReview = PlayReview(userName: string, score: int, content: string, at: Date, replyContent: Option<string>)

  /** The length of the marker "id=". */
  const MarkerLength := 3

  /** "id=" starts at position `i` of `s`. */
  predicate IdAt(s: string, i: int) {
    0 <= i && i + MarkerLength <= |s| && s[i] == 'i' && s[i + 1] == 'd' && s[i + 2] == '='
  }

  /** `"id=" in s` */
  ghost predicate ContainsId(s: string) {
    exists i :: IdAt(s, i)
  }

  /** The first position at or after `from` where "id=" starts. */
  function FindId(s: string, from: nat): Option<nat>
    decreases |s| - from
  {
    if from + MarkerLength > |s| then None
    else if IdAt(s, from) then Some(from)
    else FindId(s, from + 1)
  }

  /** The search finds the first position at or after `from` where "id=" starts, and none when there is none. */
  lemma {:induction false} FindIdSpec(s: string, from: nat)
    ensures FindId(s, from).Some? ==> from <= FindId(s, from).value && IdAt(s, FindId(s, from).value)
    ensures FindId(s, from).Some? ==> forall i :: from <= i < FindId(s, from).value ==> !IdAt(s, i)
    ensures FindId(s, from).None? ==> forall i :: from <= i ==> !IdAt(s, i)
    decreases |s| - from
  {
    if from + MarkerLength <= |s| && !IdAt(s, from) {
      FindIdSpec(s, from + 1);
    }
  }

  lemma IdAtSuffix(s: string, k: nat, i: int)
    requires k <= |s| && 0 <= i
    ensures IdAt(s[k..], i) <==> IdAt(s, k + i)
  {
  }

  /** `s.split("id=")[-1]`: the text after the last "id=" (all of `s` when it has none). */
  function LastPiece(s: string): string
    decreases |s|
  {
    FindIdSpec(s, 0);
    match FindId(s, 0)
    case None => s
    case Some(k) => LastPiece(s[k + MarkerLength..])
  }

  /** The last piece is a suffix free of "id=", preceded by "id=" when there was one. */
  lemma LastPieceSpec(s: string)
    ensures |LastPiece(s)| <= |s| && s[|s| - |LastPiece(s)|..] == LastPiece(s)
    ensures !ContainsId(LastPiece(s))
    ensures FindId(s, 0).Some? ==>
      |LastPiece(s)| + MarkerLength <= |s| && IdAt(s, |s| - |LastPiece(s)| - MarkerLength)
  {
    LastPieceSuffix(s);
    LastPieceFree(s);
  }

  /** The last piece is a suffix, preceded by "id=" when there was one. */
  lemma {:induction false} LastPieceSuffix(s: string)
    ensures |LastPiece(s)| <= |s| && s[|s| - |LastPiece(s)|..] == LastPiece(s)
    ensures FindId(s, 0).Some? ==>
      |LastPiece(s)| + MarkerLength <= |s| && IdAt(s, |s| - |LastPiece(s)| - MarkerLength)
    decreases |s|
  {
    match FindId(s, 0)
    case None =>
      assert LastPiece(s) == s;
      assert s[|s| - |s|..] == s;
    case Some(k) =>
      FindIdHit(s, 0, k);
      var rest := s[k + MarkerLength..];
      LastPieceSuffix(rest);
      assert LastPiece(s) == LastPiece(rest);
      LastPieceStep(s, k, LastPiece(rest));
  }

  /** The last piece holds no "id=". */
  lemma {:induction false} LastPieceFree(s: string)
    ensures !ContainsId(LastPiece(s))
    decreases |s|
  {
    match FindId(s, 0)
    case None =>
      assert LastPiece(s) == s;
      FindIdSpec(s, 0);
    case Some(k) =>
      FindIdHit(s, 0, k);
      LastPieceFree(s[k + MarkerLength..]);
  }

  /** A position the search returns starts an "id=". */
  lemma {:induction false} FindIdHit(s: string, from: nat, k: nat)
    requires FindId(s, from) == Some(k)
    ensures IdAt(s, k)
    decreases |s| - from
  {
    if from + MarkerLength <= |s| && !IdAt(s, from) {
      FindIdHit(s, from + 1, k);
    }
  }

  /** A suffix `r` of the text after the first "id=" is a suffix of the whole text, preceded by "id=". */
  lemma {:induction false} LastPieceStep(s: string, k: nat, r: string)
    requires FindId(s, 0) == Some(k) && k + MarkerLength <= |s|
    requires var rest := s[k + MarkerLength..];
      && |r| <= |rest| && rest[|rest| - |r|..] == r
      && (FindId(rest, 0).Some? ==> |r| + MarkerLength <= |rest| && IdAt(rest, |rest| - |r| - MarkerLength))
      && (FindId(rest, 0).None? ==> r == rest)
    ensures |r| + MarkerLength <= |s| && s[|s| - |r|..] == r
    ensures IdAt(s, |s| - |r| - MarkerLength)
  {
    var rest := s[k + MarkerLength..];
    assert |s| == k + MarkerLength + |rest|;
    assert s[|s| - |r|..] == rest[|rest| - |r|..];
    if FindId(rest, 0).Some? {
      var j := |rest| - |r| - MarkerLength;
      IdAtSuffix(s, k + MarkerLength, j);
      assert k + MarkerLength + j == |s| - |r| - MarkerLength;
    } else {
      FindIdHit(s, 0, k);
      assert |s| - |r| - MarkerLength == k;
    }
  }

  /** The package name the Play-Store client is asked for. */
  function PackageName(appUrl: string): string {
    if FindId(appUrl, 0).Some? then LastPiece(appUrl) else appUrl
  }

  /**
   * With "id=" in the URL the package name is the text after its last
   * occurrence (it is preceded by "id=" and contains none); without, the URL
   * itself.
   */
  lemma PackageNameSpec(appUrl: string)
    ensures var p := PackageName(appUrl);
      && !ContainsId(p)
      && (ContainsId(appUrl) ==>
            |p| + MarkerLength <= |appUrl| && appUrl[|appUrl| - |p|..] == p && IdAt(appUrl, |appUrl| - |p| - MarkerLength))
      && (!ContainsId(appUrl) ==> p == appUrl)
  {
    LastPieceSpec(appUrl);
    FindIdSpec(appUrl, 0);
    if ContainsId(appUrl) {
      var i :| IdAt(appUrl, i);
      assert FindId(appUrl, 0).Some?;
    } else {
      assert FindId(appUrl, 0).None?;
    }
  }

  /** The stored form of a fetched review: userName, score, content, at and replyContent, renamed. */
  function ToReview(r: PlayReview): Review {
    Review(r.userName, Some(r.score), Some(r.content), r.at, r.replyContent)
  }

  /** The list comprehension keeping the fetched reviews dated `date`, in fetched order. */
  function ReviewsForDate(fetched: seq<PlayReview>, date: Date): seq<Review> {
    if fetched == [] then []
    else (if fetched[0].at == date then [ToReview(fetched[0])] else []) + ReviewsForDate(fetched[1..], date)
  }

  /** Every kept review is dated the requested day, and no more are kept than were fetched. */
  lemma {:induction false} ReviewsForDateSpec(fetched: seq<PlayReview>, date: Date)
    ensures |ReviewsForDate(fetched, date)| <= |fetched|
    ensures forall i :: 0 <= i < |ReviewsForDate(fetched, date)| ==> ReviewsForDate(fetched, date)[i].at == date
  {
    if fetched != [] {
      ReviewsForDateSpec(fetched[1..], date);
    }
  }

  /** Filtering commutes with concatenation: fetched order is kept. */
  lemma {:induction false} ReviewsForDateAppend(a: seq<PlayReview>, b: seq<PlayReview>, date: Date)
    ensures ReviewsForDate(a + b, date) == ReviewsForDate(a, date) + ReviewsForDate(b, date)
  {
    if a != [] {
      assert (a + b)[0] == a[0];
      assert (a + b)[1..] == a[1..] + b;
      ReviewsForDateAppend(a[1..], b, date);
      var head := if a[0].at == date then [ToReview(a[0])] else [];
      assert ReviewsForDate(a, date) == head + ReviewsForDate(a[1..], date);
      assert ReviewsForDate(a + b, date) == head + ReviewsForDate(a[1..] + b, date);
      assert head + (ReviewsForDate(a[1..], date) + ReviewsForDate(b, date))
          == (head + ReviewsForDate(a[1..], date)) + ReviewsForDate(b, date);
    } else {
      assert a + b == b;
    }
  }

  /** A stored review is exactly the stored form of a fetched review of that day. */
  lemma {:induction false} ReviewsForDateMembers(fetched: seq<PlayReview>, date: Date, x: Review)
    ensures x in ReviewsForDate(fetched, date) <==>
            exists i :: 0 <= i < |fetched| && fetched[i].at == date && ToReview(fetched[i]) == x
  {
    if fetched != [] {
      ReviewsForDateMembers(fetched[1..], date, x);
      if exists i :: 0 <= i < |fetched| && fetched[i].at == date && ToReview(fetched[i]) == x {
        var i :| 0 <= i < |fetched| && fetched[i].at == date && ToReview(fetched[i]) == x;
        if i > 0 {
          assert fetched[1..][i - 1] == fetched[i];
        }
      }
      if exists i :: 0 <= i < |fetched[1..]| && fetched[1..][i].at == date && ToReview(fetched[1..][i]) == x {
        var i :| 0 <= i < |fetched[1..]| && fetched[1..][i].at == date && ToReview(fetched[1..][i]) == x;
        assert fetched[i + 1] == fetched[1..][i];
      }
    }
  }

  /**
   * `scrape_reviews_for_date`: fetch for the package name, then keep the day's
   * reviews. `fetch` is the Play-Store client; it is given the day as well so
   * that each call may see its own answer or raise.
   */
  function ScrapeReviewsForDate(appUrl: string, date: Date, fetch: (string, Date) -> Result<seq<PlayReview>>): Result<seq<Review>> {
    match fetch(PackageName(appUrl), date)
    case Err(m) => Err(m)
    case Ok(fetched) => Ok(ReviewsForDate(fetched, date))
  }

  /** The scrape fails exactly when the fetch for the package name raises, and otherwise returns only reviews of the day. */
  lemma {:induction false} ScrapeReviewsForDateSpec(appUrl: string, date: Date, fetch: (string, Date) -> Result<seq<PlayReview>>)
    ensures var r := ScrapeReviewsForDate(appUrl, date, fetch);
      && (r.Ok? <==> fetch(PackageName(appUrl), date).Ok?)
      && (r.Ok? ==> r.value == ReviewsForDate(fetch(PackageName(appUrl), date).value, date))
      && (r.Err? ==> r.message == fetch(PackageName(appUrl), date).message)
      && (r.Ok? ==> forall i :: 0 <= i < |r.value| ==> r.value[i].at == date)
  {
    if fetch(PackageName(appUrl), date).Ok? {
      ReviewsForDateSpec(fetch(PackageName(appUrl), date).value, date);
    }
  }
}
