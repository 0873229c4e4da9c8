/** The pages of ListVolumes, and what following NextToken yields. */
module Pagination {
  import opened Wrappers
  import opened Machine
  import opened Decimal

  datatype Entry = Entry(id: string, size: int)

  /** Panic: a negative length for make, or an index outside the slice. */
  datatype Answer = Page(entries: seq<Entry>, nextToken: string) | Aborted | Panic

  /** The int32 the code starts from: ParseUint accepts 32 bits, the conversion keeps them all. */
  function Start(token: string): Option<Int32> {
    if token == "" then Some(0)
    else match ParseUint32(token)
      case Some(i) => Some(Wrap32(i))
      case None => None
  }

  function PageLength(n: Int32, start: Int32, maxEntries: Int32): Int32 {
    var rem := Wrap32(n as int - start as int);
    if maxEntries == 0 || maxEntries > rem then rem else maxEntries
  }

  function PageOf(devices: seq<Entry>, maxEntries: Int32, token: string): Answer {
    var n := Wrap32(|devices|);
    match Start(token)
    case None => Aborted
    case Some(start) =>
      if start > n then Aborted
      else
        var count := PageLength(n, start, maxEntries);
        if count < 0 || (count > 0 && (start < 0 || start as int + count as int > |devices|)) then Panic
        else if count == 0 then Page([], "")
        else
          var stop: int := start as int + count as int;
          Page(devices[start..stop], if stop < n then Print(stop) else "")
  }

  lemma WrapOnce(x: int)
    requires 0 <= x < 0x1_0000_0000
    ensures Wrap32(x) == if x <= MAX_INT32 then x else x - 0x1_0000_0000
  {
    if x > MAX_INT32 {
      assert Wrap32(x - 0x1_0000_0000) == x - 0x1_0000_0000;
    }
  }

  lemma {:induction false} WrapBelow(x: nat)
    ensures Wrap32(x) <= x
    decreases x
  {
    if x > 0xFFFF_FFFF {
      WrapBelow(x - 0x1_0000_0000);
    } else {
      WrapOnce(x);
    }
  }

  lemma SliceNext<T>(s: seq<T>, i: nat, j: nat)
    requires i <= j < |s|
    ensures s[i..j] + [s[j]] == s[i..j + 1]
  {
  }

  /** The loop of ListVolumes: count entries from start on; None when an index leaves the slice, which
      panics. */
  method Fill(devices: seq<Entry>, start: int, count: nat) returns (r: Option<seq<Entry>>)
    ensures r == if count == 0 then Some([])
                 else if start < 0 || start + count > |devices| then None
                 else Some(devices[start..start + count])
  {
    var entries := [];
    var i, j := 0, start;
    while i < count
      invariant 0 <= i <= count && j == start + i
      invariant if i == 0 then entries == [] else 0 <= start && j <= |devices| && entries == devices[start..j]
    {
      if j < 0 || j >= |devices| {
        return None;
      }
      if i > 0 {
        SliceNext(devices, start, j);
      }
      entries := entries + [devices[j]];
      i, j := i + 1, j + 1;
    }
    r := Some(entries);
  }

  /** The arithmetic of ListVolumes around that loop. */
  method MakePage(devices: seq<Entry>, maxEntries: Int32, token: string) returns (r: Answer)
    ensures r == PageOf(devices, maxEntries, token)
  {
    var n: Int32 := Wrap32(|devices|);
    WrapBelow(|devices|);
    var start: Int32 := 0;
    if token != "" {
      var i := ParseUint32(token);
      if i.None? {
        return Aborted;
      }
      start := Wrap32(i.value);
    }
    assert Start(token) == Some(start);
    if start > n {
      return Aborted;
    }
    WrapOnce(n as int - start as int);
    var rem := Wrap32(n as int - start as int);
    var count := maxEntries;
    if maxEntries == 0 || maxEntries > rem {
      count := rem;
    }
    assert count == PageLength(n, start, maxEntries);
    if count < 0 {
      return Panic;
    }
    var entries := Fill(devices, start as int, count as int);
    if entries.None? {
      return Panic;
    }
    var nextToken := "";
    var next := Wrap32(start as int + count as int);
    if next < n {
      nextToken := Print(next as int);
    }
    r := Page(entries.value, nextToken);
  }

  lemma TokenCases(n: nat, token: string)
    requires n <= MAX_INT32
    ensures Start(token).Some? && Start(token).value <= n ==>
              var start: int := Start(token).value;
              Wrap32(n - start) == if n - start <= MAX_INT32 then n - start else n - start - 0x1_0000_0000
    ensures token != "" && ParseUint32(token).Some? ==>
              var i: int := ParseUint32(token).value;
              Start(token) == Some(if i <= MAX_INT32 then i else i - 0x1_0000_0000)
  {
    if token != "" && ParseUint32(token).Some? {
      WrapOnce(ParseUint32(token).value);
    }
    if Start(token).Some? && Start(token).value <= n {
      WrapOnce(n - Start(token).value as int);
    }
  }

  /** When the call panics: on a token in the upper half of the 32-bit range, or on a negative
      MaxEntries with a token that is otherwise fine. */
  lemma PanicExactly(devices: seq<Entry>, maxEntries: Int32, token: string)
    requires |devices| <= MAX_INT32
    ensures PageOf(devices, maxEntries, token) == Panic <==>
            || (token != "" && ParseUint32(token).Some? && ParseUint32(token).value > MAX_INT32)
            || (maxEntries < 0 && (token == "" || (ParseUint32(token).Some? && ParseUint32(token).value <= |devices|)))
  {
    TokenCases(|devices|, token);
  }

  /** When it is refused: the token is no 32-bit numeral, or lies beyond the end. */
  lemma AbortedExactly(devices: seq<Entry>, maxEntries: Int32, token: string)
    requires |devices| <= MAX_INT32
    ensures PageOf(devices, maxEntries, token) == Aborted <==>
            token != "" && (ParseUint32(token).None? || |devices| < ParseUint32(token).value <= MAX_INT32)
  {
    TokenCases(|devices|, token);
  }

  /** A page is a slice of the list, from its start if there is no token. */
  lemma PageTakes(devices: seq<Entry>, maxEntries: Int32, token: string)
    requires PageOf(devices, maxEntries, token).Page?
    ensures forall e | e in PageOf(devices, maxEntries, token).entries :: e in devices
    ensures token == "" && |devices| <= MAX_INT32 ==>
              PageOf(devices, maxEntries, token).entries <= devices
  {
  }

  /** The page from a position in the list: as many entries as asked for, but no more than there are, and all
      of them if MaxEntries is 0; and the position where it ends, unless that is the end. */
  lemma PageExactly(devices: seq<Entry>, maxEntries: Int32, token: string, from: nat)
    requires from <= |devices| <= MAX_INT32 && maxEntries >= 0
    requires if token == "" then from == 0 else ParseUint32(token) == Some(from)
    ensures var stop := if maxEntries == 0 || from + maxEntries > |devices| then |devices| else from + maxEntries;
            PageOf(devices, maxEntries, token) ==
            Page(devices[from..stop], if stop < |devices| then Print(stop) else "")
  {
    TokenCases(|devices|, token);
  }

  /** The tokens the driver hands out for a list of n volumes, and the empty one. */
  ghost predicate Issued(n: nat, token: string) {
    token == "" || exists k: nat :: 0 < k < n && token == Print(k)
  }

  ghost function Position(token: string): nat {
    if token != "" && ParseUint32(token).Some? then ParseUint32(token).value else 0
  }

  /** Where a page that starts at `from` ends. */
  function Stop(n: nat, maxEntries: nat, from: nat): (stop: nat)
    requires from <= n
    ensures from <= stop <= n && (stop == from ==> stop == n)
  {
    if maxEntries == 0 || maxEntries > n - from then n else from + maxEntries
  }

  lemma IssuedPosition(n: nat, token: string)
    requires n <= MAX_INT32 && Issued(n, token)
    ensures Position(token) <= n && Start(token) == Some(Position(token))
  {
    if token != "" {
      var k: nat :| 0 < k < n && token == Print(k);
      ParsePrint(k);
    }
  }

  lemma PageOfIssued(devices: seq<Entry>, maxEntries: Int32, token: string)
    requires |devices| <= MAX_INT32 && maxEntries >= 0 && Issued(|devices|, token)
    ensures Position(token) <= |devices|
    ensures var stop := Stop(|devices|, maxEntries, Position(token));
            PageOf(devices, maxEntries, token) ==
            Page(devices[Position(token)..stop], if stop < |devices| then Print(stop) else "")
  {
    IssuedPosition(|devices|, token);
  }

  lemma NextIssued(n: nat, stop: nat)
    requires 0 < stop < n <= MAX_INT32
    ensures Print(stop) != "" && Issued(n, Print(stop)) && Position(Print(stop)) == stop
  {
    PrintIsNumeral(stop);
    ParsePrint(stop);
  }

  /** The pages received by following NextToken, starting with the call-th request. The c-th
      request sees the volumes in the order orders(c) and asks for maxs(c) entries. */
  ghost function Follow(n: nat, orders: nat -> seq<Entry>, maxs: nat -> Int32, call: nat,
                        token: string): seq<seq<Entry>>
    requires n <= MAX_INT32 && Issued(n, token)
    requires forall c: nat :: |orders(c)| == n && maxs(c) >= 0
    decreases n - Position(token)
  {
    PageOfIssued(orders(call), maxs(call), token);
    var r := PageOf(orders(call), maxs(call), token);
    if r.nextToken == "" then [r.entries]
    else
      NextIssued(n, Stop(n, maxs(call), Position(token)));
      [r.entries] + Follow(n, orders, maxs, call + 1, r.nextToken)
  }

  /** The same pages, by position instead of by token. */
  ghost function Slices(n: nat, orders: nat -> seq<Entry>, maxs: nat -> Int32, call: nat, from: nat): seq<seq<Entry>>
    requires from <= n
    requires forall c: nat :: |orders(c)| == n && maxs(c) >= 0
    decreases n - from
  {
    var stop := Stop(n, maxs(call), from);
    [orders(call)[from..stop]] + if stop < n then Slices(n, orders, maxs, call + 1, stop) else []
  }

  /** One page, and the rest. */
  lemma FollowNext(n: nat, orders: nat -> seq<Entry>, maxs: nat -> Int32, call: nat, token: string)
    requires n <= MAX_INT32 && Issued(n, token) && Position(token) <= n
    requires forall c: nat :: |orders(c)| == n && maxs(c) >= 0
    ensures var stop := Stop(n, maxs(call), Position(token));
            && (stop < n ==> Issued(n, Print(stop)) && Position(Print(stop)) == stop)
            && Follow(n, orders, maxs, call, token) == [orders(call)[Position(token)..stop]] +
                 if stop < n then Follow(n, orders, maxs, call + 1, Print(stop)) else []
  {
    PageOfIssued(orders(call), maxs(call), token);
    var stop := Stop(n, maxs(call), Position(token));
    if stop < n {
      NextIssued(n, stop);
    }
  }

  /** Tokens carry positions faithfully. */
  lemma {:induction false} FollowSlices(n: nat, orders: nat -> seq<Entry>, maxs: nat -> Int32, call: nat, token: string)
    requires n <= MAX_INT32 && Issued(n, token)
    requires forall c: nat :: |orders(c)| == n && maxs(c) >= 0
    ensures Position(token) <= n
    ensures Follow(n, orders, maxs, call, token) == Slices(n, orders, maxs, call, Position(token))
    decreases n - Position(token)
  {
    IssuedPosition(n, token);
    FollowNext(n, orders, maxs, call, token);
    var from := Position(token);
    var stop := Stop(n, maxs(call), from);
    if stop < n {
      FollowSlices(n, orders, maxs, call + 1, Print(stop));
      assert Slices(n, orders, maxs, call, from) ==
             [orders(call)[from..stop]] + Slices(n, orders, maxs, call + 1, stop);
    } else {
      assert Slices(n, orders, maxs, call, from) == [orders(call)[from..stop]] + [];
    }
  }

  function Concat<T>(pages: seq<seq<T>>): seq<T> {
    if |pages| == 0 then [] else pages[0] + Concat(pages[1..])
  }

  lemma ConcatCons<T>(page: seq<T>, pages: seq<seq<T>>)
    ensures Concat([page] + pages) == page + Concat(pages)
  {
    assert ([page] + pages)[1..] == pages;
  }

  lemma {:induction false} SlicesCount(n: nat, orders: nat -> seq<Entry>, maxs: nat -> Int32, call: nat, from: nat)
    requires from <= n
    requires forall c: nat :: |orders(c)| == n && maxs(c) >= 0
    ensures |Concat(Slices(n, orders, maxs, call, from))| == n - from
    decreases n - from
  {
    var stop := Stop(n, maxs(call), from);
    if stop < n {
      SlicesCount(n, orders, maxs, call + 1, stop);
    }
    ConcatCons(orders(call)[from..stop], if stop < n then Slices(n, orders, maxs, call + 1, stop) else []);
  }

  lemma {:induction false} SlicesCover(devices: seq<Entry>, orders: nat -> seq<Entry>, maxs: nat -> Int32, call: nat,
                                       from: nat)
    requires from <= |devices|
    requires forall c: nat :: orders(c) == devices && maxs(c) >= 0
    ensures Concat(Slices(|devices|, orders, maxs, call, from)) == devices[from..]
    decreases |devices| - from
  {
    var n := |devices|;
    var stop := Stop(n, maxs(call), from);
    if stop < n {
      SlicesCover(devices, orders, maxs, call + 1, stop);
    }
    ConcatCons(devices[from..stop], if stop < n then Slices(n, orders, maxs, call + 1, stop) else []);
    assert devices[from..stop] + devices[stop..] == devices[from..];
  }

  /** Following the tokens ends (Follow is a total function), and yields as many entries as there
      are volumes left, even if the iteration order changes from call to call. */
  lemma FollowCounts(n: nat, orders: nat -> seq<Entry>, maxs: nat -> Int32, call: nat, token: string)
    requires n <= MAX_INT32 && Issued(n, token)
    requires forall c: nat :: |orders(c)| == n && maxs(c) >= 0
    ensures |Concat(Follow(n, orders, maxs, call, token))| == n - Position(token)
  {
    FollowSlices(n, orders, maxs, call, token);
    SlicesCount(n, orders, maxs, call, Position(token));
  }

  /** With an order that stays the same, the pages from the empty token on are the list itself: every
      volume once, no gap and no repeat. */
  lemma AllPages(devices: seq<Entry>, orders: nat -> seq<Entry>, maxs: nat -> Int32)
    requires |devices| <= MAX_INT32
    requires forall c: nat :: orders(c) == devices && maxs(c) >= 0
    ensures Concat(Follow(|devices|, orders, maxs, 0, "")) == devices
  {
    FollowSlices(|devices|, orders, maxs, 0, "");
    SlicesCover(devices, orders, maxs, 0, 0);
  }
}
