/**
  The player's paged tab view: which images are on screen, how the page index
  advances, what the page indicator shows, and what changing song resets.
*/
module Player {

  import opened Wrappers
  import opened Songs

  datatype ViewMode = Paged | Scroll

  /** The images a song shows: its image list if non-empty, else its single
      legacy image if set, else none. */
  function TabImages(song: Song): (urls: seq<string>)
    ensures |urls| <= 1 ==> song.tabUrls.None? || |song.tabUrls.value| <= 1
    ensures song.tabUrls.Some? && song.tabUrls.value != [] ==> urls == song.tabUrls.value
    ensures (song.tabUrls.None? || song.tabUrls.value == []) ==>
      urls == (if song.tabUrl != "" then [song.tabUrl] else [])
  {
    if song.tabUrls.Some? && |song.tabUrls.value| > 0 then song.tabUrls.value
    else if song.tabUrl != "" then [song.tabUrl]
    else []
  }

  /** The list the page turner steps through: the image list only. */
  function PagedUrls(song: Song): (urls: seq<string>)
    ensures urls != [] ==> urls == TabImages(song)
    ensures |urls| > 1 <==> |TabImages(song)| > 1
  {
    if song.tabUrls.Some? && |song.tabUrls.value| > 0 then song.tabUrls.value else []
  }

  /** `slice(start, end)` for non-negative bounds: clipped to the sequence. */
  function Slice(s: seq<string>, start: nat, end: nat): (r: seq<string>)
    ensures |r| <= if end < start then 0 else end - start
    ensures start <= end <= |s| ==> r == s[start..end]
    ensures start <= |s| < end ==> r == s[start..]
    ensures |s| <= start ==> r == []
  {
    var lo := if start < |s| then start else |s|;
    var hi := if end < |s| then end else |s|;
    if lo <= hi then s[lo..hi] else []
  }

  /** The images on screen: none without a song, the whole list when it has at
      most one image, else the two images from the page index on. */
  function CurrentPageImages(song: Option<Song>, pageIndex: nat): (r: seq<string>)
    ensures song.None? ==> r == []
    ensures forall u :: u in r ==> song.Some? && u in TabImages(song.value)
  {
    if song.None? then []
    else
      var urls := TabImages(song.value);
      if |urls| <= 1 then urls else Slice(urls, pageIndex, pageIndex + 2)
  }

  /** What the screen shows: a list of at most one image is shown whole at any
      page index; a longer list shows at most two images, the ones at the page
      index and the next, and at least one of them when the index is in range. */
  lemma CurrentPageImagesSpec(song: Song, pageIndex: nat)
    ensures var urls, shown := TabImages(song), CurrentPageImages(Some(song), pageIndex);
      && (|urls| <= 1 ==> shown == urls)
      && (|urls| > 1 ==> |shown| <= 2)
      && (|urls| > 1 && pageIndex + 2 <= |urls| ==> shown == [urls[pageIndex], urls[pageIndex + 1]])
      && (|urls| > 1 && pageIndex + 1 == |urls| ==> shown == [urls[pageIndex]])
      && (|urls| > 1 && |urls| <= pageIndex ==> shown == [])
  {
  }

  /** The page index after a page turn on a list of `n` images: two on, or back
      to the start when no image lies beyond the current pair. */
  function NextIndex(pageIndex: nat, n: nat): (r: nat)
    ensures r == 0 || (r == pageIndex + 2 && r < n)
    ensures n > 0 ==> r < n
  {
    if pageIndex + 2 < n then pageIndex + 2 else 0
  }

  /** `k` page turns from `pageIndex`. */
  function Turns(pageIndex: nat, n: nat, k: nat): nat
  {
    if k == 0 then pageIndex else NextIndex(Turns(pageIndex, n, k - 1), n)
  }

  /** How many pages (pairs) a list of `n` images has. */
  function PageCount(n: nat): nat
  {
    (n + 1) / 2
  }

  /** Turning pages from the first visits the pairs in order, page k starting
      at image 2k, and after the last page returns to the first. */
  lemma {:induction false} PageCycle(n: nat, k: nat)
    requires n > 0 && k < PageCount(n)
    ensures Turns(0, n, k) == 2 * k
    ensures k == PageCount(n) - 1 ==> Turns(0, n, k + 1) == 0
  {
    if k > 0 {
      PageCycle(n, k - 1);
    }
  }

  /** The pages from image `from` on, each the pair `slice(i, i + 2)`. */
  function PagesFrom(urls: seq<string>, from: nat): seq<seq<string>>
    decreases |urls| - from
  {
    if |urls| <= from then [] else [Slice(urls, from, from + 2)] + PagesFrom(urls, from + 2)
  }

  function Flatten(pages: seq<seq<string>>): seq<string>
  {
    if pages == [] then [] else pages[0] + Flatten(pages[1..])
  }

  /** Read in turn, the pages show every image exactly once, in order. */
  lemma {:induction false} PagesCoverAll(urls: seq<string>, from: nat)
    requires from <= |urls|
    ensures Flatten(PagesFrom(urls, from)) == urls[from..]
    decreases |urls| - from
  {
    if from < |urls| {
      var pages := PagesFrom(urls, from);
      assert pages[1..] == PagesFrom(urls, from + 2);
      if from + 2 <= |urls| {
        PagesCoverAll(urls, from + 2);
        assert urls[from..] == urls[from..from + 2] + urls[from + 2..];
      } else {
        assert PagesFrom(urls, from + 2) == [];
      }
    }
  }

  /** Page k from image `from` on is the pair starting 2k images later. */
  lemma {:induction false} PagesFromIndex(urls: seq<string>, from: nat, k: nat)
    requires from + 2 * k < |urls|
    ensures k < |PagesFrom(urls, from)|
    ensures PagesFrom(urls, from)[k] == Slice(urls, from + 2 * k, from + 2 * k + 2)
    decreases k
  {
    if k > 0 {
      PagesFromIndex(urls, from + 2, k - 1);
      assert PagesFrom(urls, from)[1..] == PagesFrom(urls, from + 2);
    }
  }

  /** After k page turns from the first page, the screen shows exactly page k
      of the list read in turn. */
  lemma PageShown(song: Song, k: nat)
    requires |TabImages(song)| > 1 && k < PageCount(|TabImages(song)|)
    ensures k < |PagesFrom(TabImages(song), 0)|
    ensures CurrentPageImages(Some(song), Turns(0, |PagedUrls(song)|, k)) == PagesFrom(TabImages(song), 0)[k]
  {
    var urls := TabImages(song);
    assert PagedUrls(song) == urls;
    PageCycle(|urls|, k);
    PagesFromIndex(urls, 0, k);
  }

  /** The page indicator over the image list: shown only for more than two
      images, as first shown image, last shown image and total, 1-based. */
  function PageIndicator(song: Song, pageIndex: nat): (r: Option<(nat, nat, nat)>)
    ensures r.Some? <==> song.tabUrls.Some? && |song.tabUrls.value| > 2
    ensures r.Some? ==> r.value.0 == pageIndex + 1 && r.value.2 == |song.tabUrls.value|
    ensures r.Some? && pageIndex < |song.tabUrls.value| ==>
      var (first, last, total) := r.value;
      && 1 <= first <= last <= total && last - first <= 1
      && last - first + 1 == |CurrentPageImages(Some(song), pageIndex)|
  {
    if song.tabUrls.Some? && |song.tabUrls.value| > 2 then
      var total := |song.tabUrls.value|;
      var last := if pageIndex + 2 < total then pageIndex + 2 else total;
      Some((pageIndex + 1, last, total))
    else None
  }

  class Player {
    var currentSong: Option<Song>
    var viewMode: ViewMode
    var pageIndex: nat
    var isScrolling: bool
    var scrollSpeed: real

    /** The page index starts a pair and, with a song open, lies inside its
        paged list or is 0. */
    ghost predicate Valid()
      reads this
    {
      && pageIndex % 2 == 0
      && (currentSong.Some? ==> pageIndex == 0 || pageIndex < |PagedUrls(currentSong.value)|)
    }

    /** Mounting: no song, paged view, first page, not scrolling, speed 1. */
    constructor ()
      ensures Valid()
      ensures currentSong.None? && viewMode == Paged && pageIndex == 0
      ensures !isScrolling && scrollSpeed == 1.0
    {
      currentSong := None;
      viewMode := Paged;
      pageIndex := 0;
      isScrolling := false;
      scrollSpeed := 1.0;
    }

    /** A current song is set and the effect keyed on it follows. Setting the
        song already open changes nothing and runs no effect. Otherwise, with a
        song, the scroll speed becomes its saved speed (1 if none), scrolling
        stops and the first page shows; without one nothing else changes. */
    method SelectSong(song: Option<Song>)
      requires Valid()
      modifies this`currentSong, this`scrollSpeed, this`isScrolling, this`pageIndex
      ensures Valid() && currentSong == song
      ensures song != old(currentSong) && song.Some? ==>
        && scrollSpeed == (if song.value.savedSpeed.Some? then song.value.savedSpeed.value else 1.0)
        && !isScrolling && pageIndex == 0
      ensures song == old(currentSong) || song.None? ==>
        scrollSpeed == old(scrollSpeed) && isScrolling == old(isScrolling) && pageIndex == old(pageIndex)
    {
      if song == currentSong {
        return;
      }
      currentSong := song;
      if song.Some? {
        var saved := if song.value.savedSpeed.Some? then song.value.savedSpeed.value else 1.0;
        scrollSpeed := saved;
        isScrolling := false;
        pageIndex := 0;
      }
    }

    /** Turn to the next pair of images, wrapping to the first; no song, no turn. */
    method NextPage()
      requires Valid()
      modifies this`pageIndex
      ensures Valid()
      ensures currentSong.None? ==> pageIndex == old(pageIndex)
      ensures currentSong.Some? ==> pageIndex == NextIndex(old(pageIndex), |PagedUrls(currentSong.value)|)
    {
      if currentSong.None? {
        return;
      }
      var urls := PagedUrls(currentSong.value);
      if pageIndex + 2 < |urls| {
        pageIndex := pageIndex + 2;
      } else {
        pageIndex := 0;
      }
    }

    /** A key press: the space bar turns the page, only with a song open in
        paged view. */
    method HandleKeyDown(isSpace: bool)
      requires Valid()
      modifies this`pageIndex
      ensures Valid()
      ensures !(currentSong.Some? && viewMode == Paged && isSpace) ==> pageIndex == old(pageIndex)
      ensures currentSong.Some? && viewMode == Paged && isSpace ==>
        pageIndex == NextIndex(old(pageIndex), |PagedUrls(currentSong.value)|)
    {
      if currentSong.Some? && viewMode == Paged && isSpace {
        NextPage();
      }
    }

    /** The view-mode button. */
    method ToggleViewMode()
      requires Valid()
      modifies this`viewMode
      ensures Valid()
      ensures viewMode == (if old(viewMode) == Paged then Scroll else Paged)
    {
      viewMode := if viewMode == Paged then Scroll else Paged;
    }
  }

  /** With a song open and the page index kept valid, the screen never goes
      blank while the song has images. */
  lemma ValidShowsSomething(song: Song, pageIndex: nat)
    requires pageIndex % 2 == 0 && (pageIndex == 0 || pageIndex < |PagedUrls(song)|)
    requires TabImages(song) != []
    ensures CurrentPageImages(Some(song), pageIndex) != []
  {
  }
}
