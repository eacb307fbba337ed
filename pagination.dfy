/**
 * The MyWaifuList result menu `MWLMenu`: a page index `i` over a list of
 * `n` embeds, moved by reaction buttons, and the "Type | Page c/p" author
 * label each shown page gets.
 */
module Pagination {
  import opened Wrappers
  import opened Decimal

  // ------------------------------------------------------------ page index

  /** The right arrow: `(i + 1) % n`. */
  function NextIndex(i: int, n: int): (j: int)
    requires 0 < n && 0 <= i < n
    ensures 0 <= j < n
    ensures j == if i == n - 1 then 0 else i + 1
  {
    (i + 1) % n
  }

  /** The left arrow: `(i - 1) % n`, with Python's non-negative remainder. */
  function PrevIndex(i: int, n: int): (j: int)
    requires 0 < n && 0 <= i < n
    ensures 0 <= j < n
    ensures j == if i == 0 then n - 1 else i - 1
  {
    (i - 1) % n
  }

  /** The two arrows undo each other. */
  lemma PrevUndoesNext(i: int, n: int)
    requires 0 < n && 0 <= i < n
    ensures PrevIndex(NextIndex(i, n), n) == i
    ensures NextIndex(PrevIndex(i, n), n) == i
  {
  }

  /** The arrow pressed `k` times from page index `i`. */
  function NextTimes(i: int, n: int, k: nat): (j: int)
    requires 0 < n && 0 <= i < n
    ensures 0 <= j < n
  {
    if k == 0 then i else NextIndex(NextTimes(i, n, k - 1), n)
  }

  lemma MulAtLeast(n: int, d: int)
    requires 0 <= n && 1 <= d
    ensures n <= n * d && n * -d <= -n
  {
    assert n * d == n * (d - 1) + n;
    assert n * -d == -(n * d);
  }

  /** The only multiple of `n` strictly between `-n` and `n` is zero. */
  lemma SmallMultipleIsZero(n: int, d: int)
    requires 0 < n && -n < n * d < n
    ensures d == 0
  {
    if d >= 1 {
      MulAtLeast(n, d);
    } else if d <= -1 {
      MulAtLeast(n, -d);
    }
  }

  /** `b` is the remainder of `n * q + b` whenever `0 <= b < n`. */
  lemma ModUnique(q: int, n: int, b: int)
    requires 0 < n && 0 <= b < n
    ensures (n * q + b) % n == b
  {
    var y := n * q + b;
    var q', r' := y / n, y % n;
    assert y == n * q' + r';
    assert n * (q - q') == r' - b;
    SmallMultipleIsZero(n, q - q');
  }

  /** One more step of the right arrow is one more step of the remainder. */
  lemma ModStep(x: int, n: int)
    requires 0 < n
    ensures (x + 1) % n == NextIndex(x % n, n)
  {
    var q, r := x / n, x % n;
    assert x == n * q + r;
    if r == n - 1 {
      assert x + 1 == n * (q + 1) + 0;
      ModUnique(q + 1, n, 0);
    } else {
      ModUnique(q, n, r + 1);
    }
  }

  /** Pressing the right arrow `k` times moves `k` pages on, cyclically. */
  lemma {:induction false} NextTimesIsShift(i: int, n: int, k: nat)
    requires 0 < n && 0 <= i < n
    ensures NextTimes(i, n, k) == (i + k) % n
  {
    if k > 0 {
      NextTimesIsShift(i, n, k - 1);
      ModStep(i + k - 1, n);
    }
  }

  /** What the user typed after the numbered-page button. */
  datatype PageReply =
    | TimedOut             // no message within the wait
    | NotANumber           // `int(msg.content)` raised
    | Number(k: int)       // the number typed

  /** The numbered-page button: page `k` is taken only when `0 < k <= n`. */
  function NumberedIndex(i: int, n: int, reply: PageReply): (j: int)
    requires 0 < n && 0 <= i < n
    ensures 0 <= j < n
    ensures reply.Number? && 0 < reply.k <= n ==> j == reply.k - 1
    ensures !(reply.Number? && 0 < reply.k <= n) ==> j == i
  {
    if reply.Number? && 0 < reply.k <= n then reply.k - 1 else i
  }

  // ------------------------------------------------------------------ labels

  /** Python's `str.isspace` for one character. */
  predicate IsSpace(c: char) {
    var n := c as int;
    || 9 <= n <= 13 || 28 <= n <= 32 || n == 0x85 || n == 0xA0 || n == 0x1680
    || 0x2000 <= n <= 0x200A || n == 0x2028 || n == 0x2029 || n == 0x202F || n == 0x205F || n == 0x3000
  }

  /** Neither end of `s` is whitespace. */
  predicate Stripped(s: string) {
    s == [] || (!IsSpace(s[0]) && !IsSpace(s[|s| - 1]))
  }

  /** Every character of `t` is whitespace. */
  predicate SpaceRun(t: string) {
    forall k :: 0 <= k < |t| ==> IsSpace(t[k])
  }

  /** `s.lstrip()`. */
  function StripLeft(s: string): string
  {
    if s != [] && IsSpace(s[0]) then StripLeft(s[1..]) else s
  }

  /** `s.rstrip()`. */
  function StripRight(s: string): string
  {
    if s != [] && IsSpace(s[|s| - 1]) then StripRight(s[..|s| - 1]) else s
  }

  /** Left-stripping keeps a suffix that is empty or starts with a non-space. */
  lemma {:induction false} StripLeftSuffix(s: string)
    ensures var l := StripLeft(s);
      && |l| <= |s| && s == s[..|s| - |l|] + l
      && (l == [] || !IsSpace(l[0]))
  {
    if s != [] && IsSpace(s[0]) {
      StripLeftSuffix(s[1..]);
      assert s == [s[0]] + s[1..];
    }
  }

  /** Left-stripping drops only whitespace. */
  lemma {:induction false} StripLeftDropsSpaces(s: string)
    ensures |StripLeft(s)| <= |s| && SpaceRun(s[..|s| - |StripLeft(s)|])
  {
    if s != [] && IsSpace(s[0]) {
      var t := s[1..];
      StripLeftDropsSpaces(t);
      assert s[..|s| - |StripLeft(t)|] == [s[0]] + t[..|t| - |StripLeft(t)|];
    }
  }

  /** Right-stripping keeps a prefix that is empty or ends with a non-space. */
  lemma {:induction false} StripRightPrefix(s: string)
    ensures var r := StripRight(s);
      && |r| <= |s| && s == r + s[|r|..]
      && (r == [] || !IsSpace(r[|r| - 1]))
  {
    if s != [] && IsSpace(s[|s| - 1]) {
      StripRightPrefix(s[..|s| - 1]);
      assert s == s[..|s| - 1] + [s[|s| - 1]];
    }
  }

  /** Right-stripping drops only whitespace. */
  lemma {:induction false} StripRightDropsSpaces(s: string)
    ensures |StripRight(s)| <= |s| && SpaceRun(s[|StripRight(s)|..])
  {
    if s != [] && IsSpace(s[|s| - 1]) {
      var t := s[..|s| - 1];
      StripRightDropsSpaces(t);
      StripRightPrefix(t);
      assert s[|StripRight(t)|..] == t[|StripRight(t)|..] + [s[|s| - 1]];
    }
  }

  /** Stripping both ends leaves the string as a whitespace run, a trimmed middle and a whitespace run. */
  lemma StripBothEnds(s: string)
    ensures var l := StripLeft(s); var r := StripRight(l);
      && |l| <= |s| && |r| <= |l|
      && SpaceRun(s[..|s| - |l|]) && SpaceRun(l[|r|..])
      && s == s[..|s| - |l|] + r + l[|r|..]
      && Stripped(r)
  {
    var l := StripLeft(s);
    StripLeftSuffix(s);
    StripLeftDropsSpaces(s);
    StripRightPrefix(l);
    StripRightDropsSpaces(l);
    var r := StripRight(l);
    assert r != [] ==> r[0] == l[0];
  }

  /** `s.strip()`: `s` is a run of whitespace, then `r`, then a run of whitespace. */
  function Strip(s: string): (r: string)
    ensures Stripped(r)
    ensures forall c :: c in r ==> c in s
    ensures exists a, b :: SpaceRun(a) && SpaceRun(b) && s == a + r + b
  {
    var l := StripLeft(s);
    var r := StripRight(l);
    StripBothEnds(s);
    var a, b := s[..|s| - |l|], l[|r|..];
    assert s == a + r + b;
    r
  }

  /** `s.split("|")[0]`: the text before the first bar. */
  function BeforeBar(s: string): (r: string)
    ensures '|' !in r
    ensures r <= s && (r == s || s[|r|] == '|')
  {
    if s == [] || s[0] == '|' then [] else [s[0]] + BeforeBar(s[1..])
  }

  /** The text after the bar of a page label: `" Page {cur}/{pages}"`. */
  function PageNumber(cur: nat, pages: nat): string
  {
    " Page " + DecimalString(cur) + "/" + DecimalString(pages)
  }

  /** `f"{type} | Page {cur}/{pages}"`. */
  function PageLabel(pageType: string, cur: nat, pages: nat): string
  {
    pageType + " |" + PageNumber(cur, pages)
  }

  /** `set_author`: the whole previous name is the type. */
  function SetAuthor(name: string, cur: nat, pages: nat): string
  {
    PageLabel(name, cur, pages)
  }

  /** The type a label shows: its trimmed text before the first bar. */
  function LabelType(name: string): (t: string)
    ensures Stripped(t) && '|' !in t
  {
    Strip(BeforeBar(name))
  }

  /** `set_author_after`: keep the trimmed type before the first bar, then the page. */
  function SetAuthorAfter(name: string, cur: nat, pages: nat): string
  {
    PageLabel(LabelType(name), cur, pages)
  }

  lemma {:induction false} BeforeBarOfSuffix(t: string, rest: string)
    requires '|' !in t
    ensures BeforeBar(t + " |" + rest) == t + " "
  {
    if t == [] {
      assert t + " |" + rest == [' ', '|'] + rest;
    } else {
      assert (t + " |" + rest)[1..] == t[1..] + " |" + rest;
      BeforeBarOfSuffix(t[1..], rest);
      assert t == [t[0]] + t[1..];
    }
  }

  lemma StripTrailingSpace(t: string)
    requires Stripped(t)
    ensures Strip(t + " ") == t
  {
    var s := t + " ";
    if t == [] {
      assert StripLeft(s) == StripLeft(s[1..]);
      assert s[1..] == [];
    } else {
      assert s[0] == t[0];
      assert StripLeft(s) == s;
      assert s[..|s| - 1] == t;
      assert StripRight(s) == StripRight(t);
    }
  }

  /** The type can be read back from a rewritten label. */
  lemma LabelTypeOfPageLabel(t: string, cur: nat, pages: nat)
    requires Stripped(t) && '|' !in t
    ensures LabelType(PageLabel(t, cur, pages)) == t
  {
    BeforeBarOfSuffix(t, PageNumber(cur, pages));
    StripTrailingSpace(t);
  }

  /** Rewriting a label keeps its type, so rewriting again only changes the page. */
  lemma SetAuthorAfterIdempotent(name: string, cur: nat, pages: nat, cur': nat, pages': nat)
    ensures LabelType(SetAuthorAfter(name, cur, pages)) == LabelType(name)
    ensures SetAuthorAfter(SetAuthorAfter(name, cur, pages), cur', pages') == SetAuthorAfter(name, cur', pages')
  {
    LabelTypeOfPageLabel(LabelType(name), cur, pages);
  }

  /** The first label of a page keeps a plain type, which every later rewrite then shows. */
  lemma SetAuthorThenAfter(pageType: string, cur: nat, pages: nat, cur': nat, pages': nat)
    requires Stripped(pageType) && '|' !in pageType
    ensures SetAuthorAfter(SetAuthor(pageType, cur, pages), cur', pages') == PageLabel(pageType, cur', pages')
  {
    LabelTypeOfPageLabel(pageType, cur, pages);
  }

  // -------------------------------------------------------------------- menu

  class MWLMenu {
    /** Index of the page shown. */
    var i: int
    /** The author name of each page's embed; embeds are edited in place when shown. */
    var labels: seq<string>

    ghost predicate Valid()
      reads this
    {
      0 < |labels| && 0 <= i < |labels|
    }

    /** The menu over the pages of a search, starting at page index `i`. */
    constructor (i: int, labels: seq<string>)
      ensures this.i == i && this.labels == labels
    {
      this.i := i;
      this.labels := labels;
    }

    /** `get_page`: the one-based current page and the number of pages. */
    function GetPage(): (r: (int, int))
      reads this
      requires Valid()
      ensures 1 <= r.0 <= r.1 && r.1 == |labels| && r.0 == i + 1
    {
      (i + 1, |labels|)
    }

    /**
     * `send_initial_message`: label the current page with its number. With no
     * page at index `i` (a search that found nothing) the menu does not start.
     */
    method SendInitialMessage() returns (started: bool)
      modifies this
      ensures started <==> 0 <= old(i) < |old(labels)|
      ensures started ==> Valid()
      ensures i == old(i)
      ensures started ==> labels == old(labels)[i := SetAuthor(old(labels)[i], i + 1, |old(labels)|)]
      ensures !started ==> labels == old(labels)
    {
      if !(0 <= i < |labels|) {
        return false;
      }
      var (cur, pages) := GetPage();
      labels := labels[i := SetAuthor(labels[i], cur, pages)];
      return true;
    }

    /** Label the page now shown with its number (`set_author_after`); the edit of the message is left out. */
    method ShowCurrentPage()
      requires Valid()
      modifies this
      ensures Valid() && i == old(i) && |labels| == |old(labels)|
      ensures labels == old(labels)[i := SetAuthorAfter(old(labels)[i], i + 1, |old(labels)|)]
    {
      var (cur, pages) := GetPage();
      labels := labels[i := SetAuthorAfter(labels[i], cur, pages)];
    }

    /** `on_first_page_arrow`: nothing happens on the first page or for another user. */
    method OnFirstPageArrow(authorised: bool)
      requires Valid()
      modifies this
      ensures Valid() && |labels| == old(|labels|)
      ensures !authorised || old(i) == 0 ==> i == old(i) && labels == old(labels)
      ensures authorised && old(i) != 0 ==>
        i == 0 && labels == old(labels)[i := SetAuthorAfter(old(labels)[i], i + 1, |old(labels)|)]
    {
      if authorised {
        if i == 0 {
          return;
        }
        i := 0 % |labels|;
        ShowCurrentPage();
      }
    }

    /** `on_left_arrow`. */
    method OnLeftArrow(authorised: bool)
      requires Valid()
      modifies this
      ensures Valid() && |labels| == old(|labels|)
      ensures !authorised ==> i == old(i) && labels == old(labels)
      ensures authorised ==>
        i == PrevIndex(old(i), |labels|) && labels == old(labels)[i := SetAuthorAfter(old(labels)[i], i + 1, |old(labels)|)]
    {
      if authorised {
        i := (i - 1) % |labels|;
        ShowCurrentPage();
      }
    }

    /** `on_right_arrow`. */
    method OnRightArrow(authorised: bool)
      requires Valid()
      modifies this
      ensures Valid() && |labels| == old(|labels|)
      ensures !authorised ==> i == old(i) && labels == old(labels)
      ensures authorised ==>
        i == NextIndex(old(i), |labels|) && labels == old(labels)[i := SetAuthorAfter(old(labels)[i], i + 1, |old(labels)|)]
    {
      if authorised {
        i := (i + 1) % |labels|;
        ShowCurrentPage();
      }
    }

    /** `on_last_page_arrow`: nothing happens on the last page or for another user. */
    method OnLastPageArrow(authorised: bool)
      requires Valid()
      modifies this
      ensures Valid() && |labels| == old(|labels|)
      ensures !authorised || old(i) == |labels| - 1 ==> i == old(i) && labels == old(labels)
      ensures authorised && old(i) != |labels| - 1 ==>
        i == |labels| - 1 && labels == old(labels)[i := SetAuthorAfter(old(labels)[i], i + 1, |old(labels)|)]
    {
      if authorised {
        if i == |labels| - 1 {
          return;
        }
        i := |labels| - 1;
        ShowCurrentPage();
      }
    }

    /** `on_numbered_page`: the typed page is shown only when it is in range. */
    method OnNumberedPage(authorised: bool, reply: PageReply)
      requires Valid()
      modifies this
      ensures Valid() && |labels| == old(|labels|)
      ensures !(authorised && reply.Number? && 0 < reply.k <= |labels|) ==> i == old(i) && labels == old(labels)
      ensures authorised && reply.Number? && 0 < reply.k <= |labels| ==>
        i == NumberedIndex(old(i), |labels|, reply) &&
        labels == old(labels)[i := SetAuthorAfter(old(labels)[i], i + 1, |old(labels)|)]
    {
      if authorised {
        match reply
        case TimedOut =>
        case NotANumber =>
        case Number(k) =>
          if 0 < k <= |labels| {
            i := k - 1;
            ShowCurrentPage();
          }
      }
    }
  }
}
