/** The paged stream of releases, its filter, and the release channels of a version. */
module Releases {
  import opened Wrappers

  // -------- Versions and channels --------

  datatype Identifier = Numeric(n: nat) | AlphaNumeric(text: string)

  datatype Version = Version(major: nat, minor: nat, patch: nat, pre: seq<Identifier>)

  datatype Channel = Devnet | Testnet | Alpha | Beta | Release

  function ChannelName(c: Channel): string {
    match c
    case Devnet => "devnet"
    case Testnet => "testnet"
    case Alpha => "alpha"
    case Beta => "beta"
    case Release => "release"
  }

  predicate Tags(id: Identifier, c: Channel) {
    !c.Release? && id == AlphaNumeric(ChannelName(c))
  }

  /** The channel of a version is that of the first of its identifiers that is exactly a channel's name. */
  ghost predicate IsChannelOf(pre: seq<Identifier>, c: Channel) {
    if c.Release? then forall i, d | 0 <= i < |pre| :: !Tags(pre[i], d)
    else exists i :: 0 <= i < |pre| && Tags(pre[i], c) && forall j, d | 0 <= j < i :: !Tags(pre[j], d)
  }

  method FromVersion(version: Version) returns (c: Channel)
    ensures IsChannelOf(version.pre, c)
    ensures match c
            case Alpha => AlphaNumeric("alpha") in version.pre
            case Beta => AlphaNumeric("beta") in version.pre
            case Testnet => AlphaNumeric("testnet") in version.pre
            case Devnet => AlphaNumeric("devnet") in version.pre
            case Release =>
              && AlphaNumeric("alpha") !in version.pre && AlphaNumeric("beta") !in version.pre
              && AlphaNumeric("testnet") !in version.pre && AlphaNumeric("devnet") !in version.pre
  {
    var i := 0;
    while i < |version.pre|
      invariant i <= |version.pre|
      invariant forall j, d | 0 <= j < i :: !Tags(version.pre[j], d)
    {
      match version.pre[i] {
        case AlphaNumeric(v) =>
          if v == "alpha" {
            assert Tags(version.pre[i], Alpha);
            return Alpha;
          } else if v == "beta" {
            assert Tags(version.pre[i], Beta);
            return Beta;
          } else if v == "testnet" {
            assert Tags(version.pre[i], Testnet);
            return Testnet;
          } else if v == "devnet" {
            assert Tags(version.pre[i], Devnet);
            return Devnet;
          }
        case Numeric(_) =>
      }
      i := i + 1;
    }
    ChannelNames();
    assert forall j | 0 <= j < |version.pre| ::
        !Tags(version.pre[j], Alpha) && !Tags(version.pre[j], Beta) && !Tags(version.pre[j], Testnet)
        && !Tags(version.pre[j], Devnet);
    return Release;
  }

  /** The names that channels have in tags and settings. */
  lemma ChannelNames()
    ensures ChannelName(Devnet) == "devnet" && ChannelName(Testnet) == "testnet" && ChannelName(Alpha) == "alpha"
    ensures ChannelName(Beta) == "beta" && ChannelName(Release) == "release"
  {
  }

  predicate OccursAt(text: string, tag: string, i: nat) {
    i + |tag| <= |text| && text[i..i + |tag|] == tag
  }

  predicate Contains(text: string, tag: string) {
    exists i | 0 <= i <= |text| :: OccursAt(text, tag, i)
  }

  /** A tag is contained in a text exactly if the text is something, then the tag, then something. */
  lemma ContainsExact(text: string, tag: string)
    ensures Contains(text, tag) <==> exists before, after :: text == before + tag + after
  {
    if Contains(text, tag) {
      var i :| 0 <= i <= |text| && OccursAt(text, tag, i);
      assert text == text[..i] + tag + text[i + |tag|..];
    }
    forall before, after | text == before + tag + after
      ensures Contains(text, tag)
    {
      assert OccursAt(text, tag, |before|);
    }
  }

  predicate Mentions(id: Identifier, tag: string) {
    id.AlphaNumeric? && Contains(id.text, tag)
  }

  ghost predicate InChannelSpec(pre: seq<Identifier>, c: Channel) {
    if c.Release? then pre == []
    else exists i :: 0 <= i < |pre| && Mentions(pre[i], ChannelName(c))
  }

  method InChannel(version: Version, c: Channel) returns (found: bool)
    ensures found == InChannelSpec(version.pre, c)
    ensures match c
            case Release => found <==> |version.pre| == 0
            case Alpha => found <==> exists i :: 0 <= i < |version.pre| && Mentions(version.pre[i], "alpha")
            case Beta => found <==> exists i :: 0 <= i < |version.pre| && Mentions(version.pre[i], "beta")
            case Testnet => found <==> exists i :: 0 <= i < |version.pre| && Mentions(version.pre[i], "testnet")
            case Devnet => found <==> exists i :: 0 <= i < |version.pre| && Mentions(version.pre[i], "devnet")
  {
    ChannelNames();
    if c.Release? {
      return version.pre == [];
    }
    var i := 0;
    while i < |version.pre|
      invariant i <= |version.pre|
      invariant forall j | 0 <= j < i :: !Mentions(version.pre[j], ChannelName(c))
    {
      if Mentions(version.pre[i], ChannelName(c)) {
        return true;
      }
      i := i + 1;
    }
    return false;
  }

  lemma ChannelIsUnique(pre: seq<Identifier>, c: Channel, d: Channel)
    requires IsChannelOf(pre, c) && IsChannelOf(pre, d)
    ensures c == d
  {
    if !c.Release? && !d.Release? {
      var i :| 0 <= i < |pre| && Tags(pre[i], c) && forall j, e | 0 <= j < i :: !Tags(pre[j], e);
      var k :| 0 <= k < |pre| && Tags(pre[k], d) && forall j, e | 0 <= j < k :: !Tags(pre[j], e);
      assert i == k;
      assert ChannelName(c) == ChannelName(d);
      NamesDiffer(c, d);
    }
  }

  lemma NamesDiffer(c: Channel, d: Channel)
    requires ChannelName(c) == ChannelName(d)
    ensures c == d
  {
    assert ChannelName(c)[0] == ChannelName(d)[0];
  }

  /** A version is in its own channel, unless that is the release channel and the version is a prerelease. */
  lemma OwnChannel(pre: seq<Identifier>, c: Channel)
    requires IsChannelOf(pre, c)
    ensures InChannelSpec(pre, c) <==> !(c.Release? && pre != [])
  {
    if !c.Release? {
      var i :| 0 <= i < |pre| && Tags(pre[i], c) && forall j, d | 0 <= j < i :: !Tags(pre[j], d);
      var name := ChannelName(c);
      assert OccursAt(pre[i].text, name, 0);
    }
  }

  // -------- The stream --------

  datatype ReleaseInfo = ReleaseInfo(version: Version, assets: seq<string>)

  datatype FetchError = FetchError(reason: string)

  type Item = Result<ReleaseInfo, FetchError>

  /** The answer for every page number; a page lists its releases in order. */
  type Pages = nat -> Result<seq<ReleaseInfo>, FetchError>

  function Reversed<T>(s: seq<T>): seq<T> {
    if s == [] then [] else Reversed(s[1..]) + [s[0]]
  }

  function Oks(releases: seq<ReleaseInfo>): (items: seq<Item>)
    ensures |items| == |releases| && forall i | 0 <= i < |releases| :: items[i] == Ok(releases[i])
  {
    seq(|releases|, i requires 0 <= i < |releases| => Ok(releases[i]))
  }

  /** The releases on the first `n` pages, in listed order; a page that failed lists none. */
  function Concat(pages: Pages, n: nat): seq<ReleaseInfo> {
    if n == 0 then [] else Concat(pages, n - 1) + if pages(n).Ok? then pages(n).value else []
  }

  /** A failure ends the stream, and so does an empty page other than the first. */
  predicate Ends(pages: Pages, n: nat) {
    pages(n).Err? || (n >= 2 && pages(n).value == [])
  }

  predicate NoEnd(pages: Pages, n: nat) {
    forall i | 1 <= i <= n :: !Ends(pages, i)
  }

  predicate FirstEnd(pages: Pages, n: nat) {
    n >= 1 && NoEnd(pages, n - 1) && Ends(pages, n)
  }

  /** What a stream that ends with page `n` yields: all earlier pages, and the failure if it was one. */
  function Whole(pages: Pages, n: nat): seq<Item>
    requires FirstEnd(pages, n)
  {
    Oks(Concat(pages, n - 1)) + if pages(n).Err? then [Err(pages(n).error)] else []
  }

  ghost predicate PrefixAt(pages: Pages, items: seq<Item>, n: nat) {
    (NoEnd(pages, n) && items <= Oks(Concat(pages, n))) || (FirstEnd(pages, n) && items <= Whole(pages, n))
  }

  /** A list of items that the stream's contract allows as the first ones. */
  ghost predicate IsPrefix(pages: Pages, items: seq<Item>) {
    exists n :: PrefixAt(pages, items, n)
  }

  datatype StreamState = Unstarted | Unfolding(page: nat, items: seq<ReleaseInfo>) | Ended

  /** A page is in use: with its releases still to come, last one first, all pages so far are accounted for. */
  ghost predicate InUse(pages: Pages, page: nat, items: seq<ReleaseInfo>, yielded: seq<Item>) {
    page >= 1 && NoEnd(pages, page) && yielded + Oks(Reversed(items)) == Oks(Concat(pages, page))
  }

  ghost predicate Complete(pages: Pages, yielded: seq<Item>) {
    exists n :: FirstEnd(pages, n) && yielded == Whole(pages, n)
  }

  /** All pages before `page` have been yielded. */
  ghost predicate Before(pages: Pages, page: nat, yielded: seq<Item>) {
    page >= 1 && NoEnd(pages, page - 1) && yielded == Oks(Concat(pages, page - 1))
  }

  lemma UsedUp(pages: Pages, page: nat, yielded: seq<Item>)
    requires InUse(pages, page, [], yielded)
    ensures page >= 1 && Before(pages, page + 1, yielded)
  {
    assert yielded + Oks(Reversed([])) == yielded;
  }

  lemma Failed(pages: Pages, page: nat, yielded: seq<Item>)
    requires Before(pages, page, yielded) && pages(page).Err?
    ensures Complete(pages, yielded + [Err(pages(page).error)])
  {
    assert FirstEnd(pages, page) && yielded + [Err(pages(page).error)] == Whole(pages, page);
  }

  lemma EmptyPage(pages: Pages, page: nat, yielded: seq<Item>)
    requires Before(pages, page, yielded) && page >= 2 && pages(page) == Ok([])
    ensures Complete(pages, yielded)
  {
    assert FirstEnd(pages, page) && yielded == Whole(pages, page);
  }

  lemma NewPage(pages: Pages, page: nat, yielded: seq<Item>)
    requires Before(pages, page, yielded) && !Ends(pages, page)
    ensures InUse(pages, page, Reversed(pages(page).value), yielded)
  {
    ReversedTwice(pages(page).value);
    assert NoEnd(pages, page);
    OksJoin(Concat(pages, page - 1), pages(page).value);
  }

  lemma OksJoin(a: seq<ReleaseInfo>, b: seq<ReleaseInfo>)
    ensures Oks(a + b) == Oks(a) + Oks(b)
  {
  }

  lemma Popped(pages: Pages, page: nat, items: seq<ReleaseInfo>, yielded: seq<Item>)
    requires items != [] && InUse(pages, page, items, yielded)
    ensures InUse(pages, page, items[..|items| - 1], yielded + [Ok(items[|items| - 1])])
  {
    var last, front := items[|items| - 1], items[..|items| - 1];
    PopReversed(items);
    OksJoin([last], Reversed(front));
    assert yielded + [Ok(last)] + Oks(Reversed(front)) == yielded + Oks([last] + Reversed(front));
  }

  /** The stream of all releases; a page is fetched when the one before it is used up. */
  class ReleaseStream {
    const pages: Pages
    var state: StreamState
    ghost var yielded: seq<Item>

    ghost predicate Valid()
      reads this
    {
      match state
      case Unstarted => yielded == []
      case Unfolding(page, items) => InUse(pages, page, items, yielded)
      case Ended => Complete(pages, yielded)
    }

    constructor (pages: Pages)
      ensures Valid() && this.pages == pages && yielded == []
    {
      this.pages := pages;
      state := Unstarted;
      yielded := [];
    }

    /** Fetches a page; its releases are taken from the back of the reversed list. */
    method Fetch(page: nat) returns (error: Option<FetchError>)
      requires Before(pages, page, yielded)
      modifies this`state
      ensures error == if pages(page).Err? then Some(pages(page).error) else None
      ensures error.None? ==> state == Unfolding(page, Reversed(pages(page).value))
      ensures error.Some? ==> state == old(state)
    {
      match pages(page)
      case Err(e) => error := Some(e);
      case Ok(items) =>
        state := Unfolding(page, Reversed(items));
        error := None;
    }

    method Fail(e: FetchError) returns (item: Option<Item>)
      requires Complete(pages, yielded + [Err(e)])
      modifies this
      ensures Valid() && state.Ended? && item == Some(Err(e)) && yielded == old(yielded) + [Err(e)]
    {
      state := Ended;
      yielded := yielded + [Err(e)];
      item := Some(Err(e));
    }

    method Pop() returns (item: Option<Item>)
      requires Valid() && state.Unfolding? && state.items != []
      modifies this
      ensures Valid() && item.Some? && yielded == old(yielded) + [item.value]
    {
      hide InUse;
      var items := state.items;
      var last := items[|items| - 1];
      Popped(pages, state.page, items, yielded);
      state := state.(items := items[..|items| - 1]);
      yielded := yielded + [Ok(last)];
      item := Some(Ok(last));
    }

    /** The next release, or the failure, or the end of the stream for ever. */
    method Next() returns (item: Option<Item>)
      requires Valid()
      modifies this
      ensures Valid()
      ensures yielded == old(yielded) + if item.Some? then [item.value] else []
      ensures item.None? ==> state.Ended?
      ensures old(state.Ended?) ==> item.None?
    {
      hide InUse, Complete, Before, Concat, Reversed;
      if state.Unstarted? {
        FirstPage(pages);
        var error := Fetch(1);
        if error.Some? {
          Failed(pages, 1, yielded);
          item := Fail(error.value);
          return;
        }
        NewPage(pages, 1, yielded);
      }
      if state.Ended? {
        return None;
      }
      if state.items == [] {
        var page := state.page + 1;
        UsedUp(pages, state.page, yielded);
        var error := Fetch(page);
        if error.Some? {
          Failed(pages, page, yielded);
          item := Fail(error.value);
          return;
        }
        ReversedTwice(pages(page).value);
        if state.items == [] {
          EmptyPage(pages, page, yielded);
          state := Ended;
          return None;
        }
        NewPage(pages, page, yielded);
      }
      item := Pop();
    }
  }

  lemma FirstPage(pages: Pages)
    ensures Before(pages, 1, [])
  {
  }

  lemma {:induction false} ReversedAppend<T>(s: seq<T>, x: T)
    ensures Reversed(s + [x]) == [x] + Reversed(s)
  {
    if s == [] {
    } else {
      ReversedAppend(s[1..], x);
      assert (s + [x])[1..] == s[1..] + [x];
    }
  }

  lemma {:induction false} ReversedTwice<T>(s: seq<T>)
    ensures Reversed(Reversed(s)) == s && |Reversed(s)| == |s|
  {
    if s == [] {
    } else {
      ReversedTwice(s[1..]);
      ReversedAppend(Reversed(s[1..]), s[0]);
    }
  }

  lemma PopReversed<T>(s: seq<T>)
    requires s != []
    ensures Reversed(s) == [s[|s| - 1]] + Reversed(s[..|s| - 1])
  {
    hide Reversed;
    assert s == s[..|s| - 1] + [s[|s| - 1]];
    ReversedAppend(s[..|s| - 1], s[|s| - 1]);
  }

  // -------- The stream is the simple listing --------

  /** The first `n` items of the stream, or all of them if it ends before. */
  method Take(pages: Pages, n: nat) returns (items: seq<Item>, ended: bool)
    ensures IsPrefix(pages, items) && |items| <= n
    ensures !ended ==> |items| == n
    ensures ended ==> Complete(pages, items)
  {
    var stream := new ReleaseStream(pages);
    items, ended := [], false;
    while |items| < n && !ended
      invariant stream.Valid() && stream.pages == pages && items == stream.yielded && |items| <= n
      invariant ended ==> stream.state.Ended?
      decreases n - |items|, !ended
    {
      var item := stream.Next();
      if item.Some? {
        items := items + [item.value];
      } else {
        ended := true;
      }
    }
    ValidIsPrefix(pages, items, stream.state);
  }

  lemma ValidIsPrefix(pages: Pages, yielded: seq<Item>, state: StreamState)
    requires match state
             case Unstarted => yielded == []
             case Unfolding(page, items) => InUse(pages, page, items, yielded)
             case Ended => Complete(pages, yielded)
    ensures IsPrefix(pages, yielded)
  {
    match state
    case Unstarted =>
      assert PrefixAt(pages, yielded, 0);
    case Unfolding(page, items) =>
      assert PrefixAt(pages, yielded, page);
    case Ended =>
      var n :| FirstEnd(pages, n) && yielded == Whole(pages, n);
      assert PrefixAt(pages, yielded, n);
  }

  lemma {:induction false} ConcatGrows(pages: Pages, m: nat, n: nat)
    requires m <= n
    ensures Concat(pages, m) <= Concat(pages, n)
  {
    if m == n {
    } else {
      ConcatGrows(pages, m, n - 1);
    }
  }

  lemma OksMonotone(a: seq<ReleaseInfo>, b: seq<ReleaseInfo>)
    requires a <= b
    ensures Oks(a) <= Oks(b)
  {
  }

  lemma PagesAgree(pages: Pages, m: nat, n: nat)
    requires m <= n
    ensures Oks(Concat(pages, m)) <= Oks(Concat(pages, n))
    ensures FirstEnd(pages, n) ==> Oks(Concat(pages, n - 1)) <= Whole(pages, n)
  {
    ConcatGrows(pages, m, n);
    OksMonotone(Concat(pages, m), Concat(pages, n));
  }

  /** There is one listing: the first items that the contract allows are the same for equal lengths. */
  lemma PrefixesAgree(pages: Pages, a: seq<Item>, b: seq<Item>)
    requires IsPrefix(pages, a) && IsPrefix(pages, b) && |a| <= |b|
    ensures a <= b
  {
    var m :| PrefixAt(pages, a, m);
    var n :| PrefixAt(pages, b, n);
    var whole := Cover(pages, m, n, a, b);
    assert a <= whole && b <= whole;
  }

  lemma Cover(pages: Pages, m: nat, n: nat, a: seq<Item>, b: seq<Item>) returns (whole: seq<Item>)
    requires PrefixAt(pages, a, m) && PrefixAt(pages, b, n)
    ensures a <= whole && b <= whole
  {
    if m > n {
      whole := Cover(pages, n, m, b, a);
    } else {
      hide Concat, Whole;
      if FirstEnd(pages, n) {
        whole := Whole(pages, n);
        if m < n {
          PagesAgree(pages, m, n - 1);
          PagesAgree(pages, n, n);
        }
      } else {
        whole := Oks(Concat(pages, n));
        PagesAgree(pages, m, n);
      }
    }
  }

  /** A stream that ended has yielded everything: every prefix is one of what it yielded. */
  lemma CompleteIsLongest(pages: Pages, items: seq<Item>, all: seq<Item>)
    requires Complete(pages, all) && IsPrefix(pages, items)
    ensures items <= all
  {
    var n: nat :| FirstEnd(pages, n) && all == Whole(pages, n);
    var m: nat :| PrefixAt(pages, items, m);
    hide Concat, Whole;
    assert Ends(pages, n) && (m > n ==> !NoEnd(pages, m - 1));
    if m < n {
      PagesAgree(pages, m, n - 1);
      PagesAgree(pages, n, n);
    }
  }

  // -------- The filter --------

  /** Failures do not pass. */
  predicate Passes(item: Item, keep: ReleaseInfo -> bool) {
    item.Ok? && keep(item.value)
  }

  function Filtered(items: seq<Item>, keep: ReleaseInfo -> bool): seq<Item> {
    if items == [] then []
    else (if Passes(items[0], keep) then [items[0]] else []) + Filtered(items[1..], keep)
  }

  function Select(releases: seq<ReleaseInfo>, keep: ReleaseInfo -> bool): seq<ReleaseInfo> {
    if releases == [] then []
    else (if keep(releases[0]) then [releases[0]] else []) + Select(releases[1..], keep)
  }

  lemma {:induction false} FilteredOks(releases: seq<ReleaseInfo>, keep: ReleaseInfo -> bool, tail: seq<Item>)
    requires forall i | 0 <= i < |tail| :: tail[i].Err?
    ensures Filtered(Oks(releases) + tail, keep) == Oks(Select(releases, keep))
  {
    if releases != [] {
      assert (Oks(releases) + tail)[1..] == Oks(releases[1..]) + tail;
      FilteredOks(releases[1..], keep, tail);
    } else if tail != [] {
      assert Oks(releases) + tail == tail && (Oks(releases) + tail)[1..] == Oks(releases) + tail[1..];
      FilteredOks(releases, keep, tail[1..]);
    }
  }

  /** A filtered stream yields the passing releases of the pages in listed order, and never a failure. */
  lemma FilteredStream(pages: Pages, n: nat, keep: ReleaseInfo -> bool)
    ensures Filtered(Oks(Concat(pages, n)), keep) == Oks(Select(Concat(pages, n), keep))
    ensures FirstEnd(pages, n) ==> Filtered(Whole(pages, n), keep) == Oks(Select(Concat(pages, n - 1), keep))
  {
    FilteredOks(Concat(pages, n), keep, []);
    assert Oks(Concat(pages, n)) + [] == Oks(Concat(pages, n));
    if FirstEnd(pages, n) {
      FilteredOks(Concat(pages, n - 1), keep, if pages(n).Err? then [Err(pages(n).error)] else []);
    }
  }

  // -------- Positions --------

  /** A page ends the stream if it failed, or if it is empty and not the first. */
  lemma EndsExact(pages: Pages, n: nat)
    ensures Ends(pages, n) <==> pages(n).Err? || (pages(n) == Ok([]) && n != 0 && n != 1)
  {
  }

  /** The release at position `j` of page `i` comes right after all releases of the pages before and `j` of its own. */
  lemma {:induction false} ListedAt(pages: Pages, n: nat, i: nat, j: nat)
    requires 1 <= i <= n && pages(i).Ok? && j < |pages(i).value|
    ensures |Concat(pages, i - 1)| + j < |Concat(pages, n)|
    ensures Concat(pages, n)[|Concat(pages, i - 1)| + j] == pages(i).value[j]
    ensures |Concat(pages, i)| == |Concat(pages, i - 1)| + |pages(i).value|
    decreases n
  {
    if n == i {
    } else {
      ListedAt(pages, n - 1, i, j);
    }
  }

  /** The positions `at` are those of the passing releases, in order, and `picked` is what is there. */
  ghost predicate Picks(releases: seq<ReleaseInfo>, keep: ReleaseInfo -> bool, at: seq<nat>, picked: seq<ReleaseInfo>) {
    && |at| == |picked|
    && (forall i, j | 0 <= i < j < |at| :: at[i] < at[j])
    && (forall i | 0 <= i < |at| :: at[i] < |releases| && picked[i] == releases[at[i]])
    && forall n | 0 <= n < |releases| :: n in at <==> keep(releases[n])
  }

  lemma {:induction false} SelectAppend(releases: seq<ReleaseInfo>, x: ReleaseInfo, keep: ReleaseInfo -> bool)
    ensures Select(releases + [x], keep) == Select(releases, keep) + if keep(x) then [x] else []
  {
    if releases == [] {
      assert [x][1..] == [] && releases + [x] == [x];
    } else {
      var tail, more := releases[1..], if keep(x) then [x] else [];
      var head := if keep(releases[0]) then [releases[0]] else [];
      SelectAppend(tail, x, keep);
      assert (releases + [x])[1..] == tail + [x] && (releases + [x])[0] == releases[0];
      assert Select(releases, keep) == head + Select(tail, keep);
      assert Select(releases + [x], keep) == head + Select(tail + [x], keep);
      hide Select;
      assert head + (Select(tail, keep) + more) == (head + Select(tail, keep)) + more;
    }
  }

  /** One more release at the end. */
  lemma PicksMore(releases: seq<ReleaseInfo>, x: ReleaseInfo, keep: ReleaseInfo -> bool, at: seq<nat>,
                  picked: seq<ReleaseInfo>)
    requires Picks(releases, keep, at, picked)
    ensures keep(x) ==> Picks(releases + [x], keep, at + [|releases|], picked + [x])
    ensures !keep(x) ==> Picks(releases + [x], keep, at, picked)
  {
    assert forall n | n in at :: n < |releases|;
  }

  /** The selection is that of the passing positions, in order. */
  lemma {:induction false} SelectExact(releases: seq<ReleaseInfo>, keep: ReleaseInfo -> bool) returns (at: seq<nat>)
    ensures Picks(releases, keep, at, Select(releases, keep))
  {
    if releases == [] {
      at := [];
    } else {
      var last := |releases| - 1;
      var front, x := releases[..last], releases[last];
      at := SelectExact(front, keep);
      PicksMore(front, x, keep, at, Select(front, keep));
      SelectAppend(front, x, keep);
      hide Picks, Select;
      assert releases == front + [x];
      if keep(x) {
        at := at + [last];
      } else {
        assert Select(front, keep) + [] == Select(front, keep);
      }
    }
  }
}
