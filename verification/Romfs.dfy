/**
 Directories of a romfs image: a chain of file headers in a read-only byte image.
 readdir lists the chain a bufferful at a time, leaving out one hidden name, and
 lookup searches it for a name.
 */
module Romfs {
  type Byte = b: int | 0 <= b < 256

  const HEADER := 16
  const MAXFN := 128
  const TWO_31 := 0x8000_0000
  const SIGN_FILL := 0xFFFF_FFFF_0000_0000

  // The image, up to the size its superblock states, which is a 32-bit number.
  predicate IsImage(img: seq<Byte>) { |img| < 0x1_0000_0000 }

  // The big-endian word at an offset.
  function Word(img: seq<Byte>, at: nat): (w: nat)
    requires at + 4 <= |img|
    ensures w < 0x1_0000_0000
  {
    ((img[at] as int * 256 + img[at + 1] as int) * 256 + img[at + 2] as int) * 256 + img[at + 3] as int
  }

  // The offset in a header word, whose low four bits hold other things.
  function Masked(w: nat): nat { w - w % 16 }

  // A 32-bit word kept in an int and then widened to 64 bits.
  function SignExtend(w: nat): nat { if w >= TWO_31 then w + SIGN_FILL else w }

  // The length of the string at an offset, at most max and within the image.
  function Strnlen(img: seq<Byte>, at: nat, max: nat): (n: nat)
    requires at <= |img|
    ensures n <= max && at + n <= |img| && forall i :: at <= i < at + n ==> img[i] != 0
    ensures n == max || at + n == |img| || img[at + n] == 0
    decreases max
  {
    if max == 0 || at == |img| || img[at] == 0 then 0 else 1 + Strnlen(img, at + 1, max - 1)
  }

  // ---- Entries ----

  // The end of a directory.
  predicate Ended(img: seq<Byte>, at: nat) { at == 0 || at >= |img| }

  // A header and the start of a name can be read at this offset.
  predicate Readable(img: seq<Byte>, at: nat) { at + HEADER < |img| }

  // The name as readdir reads it into its buffer of MAXFN bytes.
  function Name(img: seq<Byte>, at: nat): seq<Byte>
    requires Readable(img, at)
  {
    img[at + HEADER..at + HEADER + Strnlen(img, at + HEADER, MAXFN - 1)]
  }

  predicate IsHardLink(img: seq<Byte>, at: nat)
    requires Readable(img, at)
  {
    Word(img, at) % 8 == 0
  }

  datatype Entry = Entry(name: seq<Byte>, ino: nat, kind: nat)

  // What readdir reports for the header at an offset.
  function EntryAt(img: seq<Byte>, at: nat): Entry
    requires Readable(img, at)
  {
    Entry(Name(img, at), SignExtend(if IsHardLink(img, at) then Word(img, at + 4) else at), Word(img, at) % 8)
  }

  // The next header.  readdir keeps the word in a signed int, lookup in an unsigned one.
  function NextAt(img: seq<Byte>, at: nat, listing: bool): nat
    requires Readable(img, at)
  {
    if listing then SignExtend(Masked(Word(img, at))) else Masked(Word(img, at))
  }

  // The first header of a directory.
  function FirstAt(img: seq<Byte>, dir: nat): nat
    requires Masked(dir) + HEADER <= |img|
  {
    Masked(Word(img, Masked(dir) + 4))
  }

  // ---- Chains ----

  // The offsets read from one on, up to the end or to a header that cannot be read.
  ghost predicate IsChain(img: seq<Byte>, at: nat, chain: seq<nat>, listing: bool)
    decreases |chain|
  {
    if chain == [] then Ended(img, at) || !Readable(img, at)
    else
      && chain[0] == at && !Ended(img, at) && Readable(img, at)
      && IsChain(img, NextAt(img, at, listing), chain[1..], listing)
  }

  lemma {:induction false} ChainUnique(img: seq<Byte>, at: nat, c: seq<nat>, d: seq<nat>, listing: bool)
    requires IsChain(img, at, c, listing) && IsChain(img, at, d, listing)
    ensures c == d
    decreases |c|
  {
    if c != [] && d != [] {
      ChainUnique(img, NextAt(img, at, listing), c[1..], d[1..], listing);
      assert c == [at] + c[1..] && d == [at] + d[1..];
    }
  }

  lemma {:induction false} ChainSuffix(img: seq<Byte>, at: nat, chain: seq<nat>, listing: bool, k: nat)
    requires IsChain(img, at, chain, listing) && k < |chain|
    ensures IsChain(img, chain[k], chain[k..], listing) && Readable(img, chain[k]) && !Ended(img, chain[k])
    decreases k
  {
    if k > 0 {
      ChainSuffix(img, NextAt(img, at, listing), chain[1..], listing, k - 1);
      assert chain[1..][k - 1..] == chain[k..];
    } else {
      assert chain[0..] == chain;
    }
  }

  // A chain that ends visits no header twice.
  lemma ChainDistinct(img: seq<Byte>, at: nat, chain: seq<nat>, listing: bool, i: nat, j: nat)
    requires IsChain(img, at, chain, listing) && i < j < |chain|
    ensures chain[i] != chain[j]
  {
    ChainSuffix(img, at, chain, listing, i);
    ChainSuffix(img, at, chain, listing, j);
    if chain[i] == chain[j] {
      ChainUnique(img, chain[i], chain[i..], chain[j..], listing);
      assert false;
    }
  }

  // ---- readdir ----

  // The entry of a header, unless it is hidden.
  function Shown(img: seq<Byte>, at: nat, hidden: seq<Byte>): seq<Entry>
    requires Readable(img, at)
  {
    if Name(img, at) == hidden then [] else [EntryAt(img, at)]
  }

  // The entries a listing should show.
  function Visible(img: seq<Byte>, chain: seq<nat>, hidden: seq<Byte>): (v: seq<Entry>)
    requires forall i :: 0 <= i < |chain| ==> Readable(img, chain[i])
    ensures |v| <= |chain|
  {
    if chain == [] then [] else Shown(img, chain[0], hidden) + Visible(img, chain[1..], hidden)
  }

  // A listing of all that has shown out and goes on at an offset with the rest of the chain.
  ghost predicate Listing(img: seq<Byte>, at: nat, rest: seq<nat>, hidden: seq<Byte>,
                          out: seq<Entry>, all: seq<Entry>)
  {
    && IsChain(img, at, rest, true) && (forall i :: 0 <= i < |rest| ==> Readable(img, rest[i]))
    && all == out + Visible(img, rest, hidden)
  }

  // One header: it is shown or hidden, and the listing goes on behind it.
  lemma ListingStep(img: seq<Byte>, at: nat, rest: seq<nat>, hidden: seq<Byte>, out: seq<Entry>, all: seq<Entry>)
    requires Listing(img, at, rest, hidden, out, all) && !Ended(img, at) && Readable(img, at)
    ensures rest != []
    ensures Listing(img, NextAt(img, at, true), rest[1..], hidden,
                    if Name(img, at) == hidden then out else out + [EntryAt(img, at)], all)
  {
    var shown, later := Shown(img, at, hidden), Visible(img, rest[1..], hidden);
    assert out + (shown + later) == (out + shown) + later;
    assert shown == [] ==> out + shown == out;
  }

  // An entry shown is that of a header of the chain that is not hidden.
  lemma {:induction false} VisibleOf(img: seq<Byte>, chain: seq<nat>, hidden: seq<Byte>, j: nat) returns (k: nat)
    requires forall i :: 0 <= i < |chain| ==> Readable(img, chain[i])
    requires j < |Visible(img, chain, hidden)|
    ensures j <= k < |chain| && Visible(img, chain, hidden)[j] == EntryAt(img, chain[k])
    ensures EntryAt(img, chain[k]).name != hidden
    decreases |chain|
  {
    var first, later := EntryAt(img, chain[0]), Visible(img, chain[1..], hidden);
    var all := if first.name == hidden then later else [first] + later;
    assert Visible(img, chain, hidden) == all;
    k := 0;
    if first.name == hidden || j > 0 {
      k := VisibleOf(img, chain[1..], hidden, if first.name == hidden then j else j - 1);
      k := k + 1;
    }
  }

  lemma FrontShown(img: seq<Byte>, chain: seq<nat>, hidden: seq<Byte>, k: nat)
    requires 0 < k < |chain| && (forall i :: 0 <= i < |chain| ==> Readable(img, chain[i]))
    ensures Visible(img, chain[..k], hidden)
         == Shown(img, chain[0], hidden) + Visible(img, chain[1..][..k - 1], hidden)
  {
    assert chain[..k][1..] == chain[1..][..k - 1] && chain[..k][0] == chain[0];
  }

  // Every header that is not hidden is shown, after exactly the entries of the headers before it.
  lemma {:induction false} ShownAt(img: seq<Byte>, chain: seq<nat>, hidden: seq<Byte>, k: nat)
    requires k < |chain| && (forall i :: 0 <= i < |chain| ==> Readable(img, chain[i]))
    requires EntryAt(img, chain[k]).name != hidden
    ensures var j := |Visible(img, chain[..k], hidden)|;
            j < |Visible(img, chain, hidden)| && Visible(img, chain, hidden)[j] == EntryAt(img, chain[k])
    decreases k
  {
    if k == 0 {
      assert chain[..0] == [];
    } else {
      ShownAt(img, chain[1..], hidden, k - 1);
      FrontShown(img, chain, hidden, k);
    }
  }

  // The name shown is what the image has after the header, up to its terminator or as far as it is read.
  lemma NameInImage(img: seq<Byte>, at: nat)
    requires Readable(img, at)
    ensures var name := EntryAt(img, at).name;
            && |name| < MAXFN && at + HEADER + |name| <= |img| && name == img[at + HEADER..at + HEADER + |name|]
            && 0 !in name
            && (|name| == MAXFN - 1 || at + HEADER + |name| == |img| || img[at + HEADER + |name|] == 0)
  {
  }

  lemma ChainReadable(img: seq<Byte>, at: nat, chain: seq<nat>, listing: bool)
    requires IsChain(img, at, chain, listing)
    ensures forall i :: 0 <= i < |chain| ==> Readable(img, chain[i])
  {
    forall i | 0 <= i < |chain| ensures Readable(img, chain[i]) {
      ChainSuffix(img, at, chain, listing, i);
    }
  }

  // The chain of a directory, which is empty when its own header cannot be read.
  ghost predicate IsDirectory(img: seq<Byte>, dir: nat, chain: seq<nat>, listing: bool) {
    if Masked(dir) + HEADER <= |img| then IsChain(img, FirstAt(img, dir), chain, listing) else chain == []
  }

  // The first n elements, or all of them.
  function Take<T>(s: seq<T>, n: nat): seq<T> { if n <= |s| then s[..n] else s }

  lemma TakeTwice<T>(all: seq<T>, before: seq<T>, out: seq<T>, more: seq<T>, after: seq<T>, n: nat, m: nat)
    requires all == out + before && out == Take(all, n) && before == more + after && more == Take(before, m)
    ensures all == out + more + after && out + more == Take(all, n + m)
  {
    assert all == out + more + after;
    if n + m <= |all| {
      assert all[..n + m] == out + more;
    }
  }

  // An open directory, whose position readdir moves.
  class OpenDir {
    const img: seq<Byte>
    const dir: nat
    const hidden: seq<Byte>
    var pos: nat

    // The headers from the position on.
    ghost var rest: seq<nat>

    ghost predicate Valid()
      reads this
    {
      && IsImage(img)
      && (if pos == 0 then IsDirectory(img, dir, rest, true) else IsChain(img, pos, rest, true))
      && forall i :: 0 <= i < |rest| ==> Readable(img, rest[i])
    }

    // The entries still to be shown.
    ghost function Left(): seq<Entry>
      requires Valid()
      reads this
    {
      Visible(img, rest, hidden)
    }

    constructor (img: seq<Byte>, dir: nat, hidden: seq<Byte>, ghost chain: seq<nat>)
      requires IsImage(img) && IsDirectory(img, dir, chain, true)
      ensures Valid() && this.img == img && this.dir == dir && this.hidden == hidden && pos == 0 && rest == chain
    {
      if Masked(dir) + HEADER <= |img| {
        ChainReadable(img, FirstAt(img, dir), chain, true);
      }
      this.img, this.dir, this.hidden := img, dir, hidden;
      pos, rest := 0, chain;
    }

    // One call, in which the caller's buffer has room for so many entries.
    method Readdir(room: nat) returns (out: seq<Entry>)
      requires Valid()
      modifies this
      ensures Valid() && out == Take(old(Left()), room) && old(Left()) == out + Left()
    {
      out := [];
      var offset := pos;
      if offset == 0 {
        if Masked(dir) + HEADER > |img| {
          return;
        }
        offset := FirstAt(img, dir);
      }
      ghost var all := Left();
      while true
        invariant Listing(img, offset, rest, hidden, out, all) && |out| <= room
        decreases |rest|
      {
        if Ended(img, offset) {
          pos := |img|;
          break;
        }
        pos := offset;
        if !Readable(img, offset) {
          break;
        }
        ListingStep(img, offset, rest, hidden, out, all);
        if Name(img, offset) != hidden {
          if |out| == room {
            break;
          }
          out := out + [EntryAt(img, offset)];
        }
        offset := NextAt(img, offset, true);
        rest := rest[1..];
      }
    }

    // Calls with any rooms, each resumed where the last one stopped.
    method ReadAll(rooms: seq<nat>) returns (out: seq<Entry>)
      requires Valid()
      modifies this
      ensures Valid() && out == Take(old(Left()), Total(rooms)) && old(Left()) == out + Left()
    {
      out := [];
      ghost var all := Left();
      for k := 0 to |rooms|
        invariant Valid() && out == Take(all, Total(rooms[..k])) && all == out + Left()
      {
        ghost var before := Left();
        var more := Readdir(rooms[k]);
        ResumeStep(all, before, out, more, Left(), rooms, k);
        out := out + more;
      }
      assert rooms[..|rooms|] == rooms;
    }
  }

  function Total(rooms: seq<nat>): nat {
    if rooms == [] then 0 else Total(rooms[..|rooms| - 1]) + rooms[|rooms| - 1]
  }

  // One more call of a resumed listing.
  lemma ResumeStep<T>(all: seq<T>, before: seq<T>, out: seq<T>, more: seq<T>, after: seq<T>, rooms: seq<nat>, k: nat)
    requires k < |rooms| && all == out + before && out == Take(all, Total(rooms[..k]))
    requires before == more + after && more == Take(before, rooms[k])
    ensures all == out + more + after && out + more == Take(all, Total(rooms[..k + 1]))
  {
    assert rooms[..k + 1][..k] == rooms[..k];
    TakeTwice(all, before, out, more, after, Total(rooms[..k]), rooms[k]);
  }

  // ---- lookup ----

  datatype Found = Found(entry: nat, target: nat, exec: bool) | NotFound | IoError | NameTooLong

  // The comparison has its last byte, the one after the name, inside the image.
  predicate Fits(img: seq<Byte>, at: nat, name: seq<Byte>) { at + HEADER + |name| < |img| }

  // The name in the image is the given one, with its terminator.
  predicate Matches(img: seq<Byte>, at: nat, name: seq<Byte>)
    requires Fits(img, at, name)
  {
    img[at + HEADER..at + HEADER + |name|] == name && img[at + HEADER + |name|] == 0
  }

  // The offset whose inode lookup returns.
  function Target(img: seq<Byte>, at: nat): nat
    requires Readable(img, at)
  {
    if IsHardLink(img, at) then Masked(Word(img, at + 4)) else at
  }

  // What a search of the chain should give.
  ghost function Search(img: seq<Byte>, at: nat, chain: seq<nat>, name: seq<Byte>, exec: seq<Byte>): Found
    requires forall i :: 0 <= i < |chain| ==> Readable(img, chain[i])
    decreases |chain|
  {
    if chain == [] then (if Ended(img, at) then NotFound else IoError)
    else if |name| > MAXFN then NameTooLong
    else if !Fits(img, chain[0], name) then IoError
    else if Matches(img, chain[0], name) then Found(chain[0], Target(img, chain[0]), name == exec)
    else Search(img, NextAt(img, chain[0], false), chain[1..], name, exec)
  }

  ghost function SearchDirectory(img: seq<Byte>, dir: nat, chain: seq<nat>, name: seq<Byte>, exec: seq<Byte>): Found
    requires IsDirectory(img, dir, chain, false)
  {
    if Masked(dir) + HEADER <= |img| then
      ChainReadable(img, FirstAt(img, dir), chain, false);
      Search(img, FirstAt(img, dir), chain, name, exec)
    else IoError
  }

  method Lookup(img: seq<Byte>, dir: nat, name: seq<Byte>, exec: seq<Byte>, ghost chain: seq<nat>) returns (r: Found)
    requires IsDirectory(img, dir, chain, false)
    ensures r == SearchDirectory(img, dir, chain, name, exec)
  {
    if Masked(dir) + HEADER > |img| {
      return IoError;
    }
    var offset := FirstAt(img, dir);
    ChainReadable(img, offset, chain, false);
    ghost var rest := chain;
    while !Ended(img, offset)
      invariant IsChain(img, offset, rest, false) && forall i :: 0 <= i < |rest| ==> Readable(img, rest[i])
      invariant SearchDirectory(img, dir, chain, name, exec) == Search(img, offset, rest, name, exec)
      decreases |rest|
    {
      if !Readable(img, offset) {
        return IoError;
      }
      if |name| > MAXFN {
        return NameTooLong;
      }
      if !Fits(img, offset, name) {
        return IoError;
      }
      if Matches(img, offset, name) {
        return Found(offset, Target(img, offset), name == exec);
      }
      offset := NextAt(img, offset, false);
      rest := rest[1..];
    }
    return NotFound;
  }

  // ---- Listing and lookup agree ----

  // The name as listed is followed by its terminator, so that it is the whole name.
  predicate Terminated(img: seq<Byte>, at: nat)
    requires Readable(img, at)
  {
    var end := at + HEADER + |Name(img, at)|;
    end < |img| && img[end] == 0
  }

  lemma MatchesIsName(img: seq<Byte>, at: nat, name: seq<Byte>)
    requires Readable(img, at) && |name| < MAXFN && 0 !in name && Fits(img, at, name)
    ensures Matches(img, at, name) <==> Name(img, at) == name && Terminated(img, at)
  {
    var start, n := at + HEADER, Strnlen(img, at + HEADER, MAXFN - 1);
    if Matches(img, at, name) {
      forall i | start <= i < start + |name| ensures img[i] != 0 {
        assert img[i] == img[start..start + |name|][i - start] == name[i - start];
      }
      assert n == |name|;
    }
  }

  // The header after this one lies where a signed 32-bit offset cannot point, and can be read.
  ghost predicate BeyondInt(img: seq<Byte>, at: nat) {
    && Readable(img, at)
    && var next := Word(img, at) - Word(img, at) % 16; TWO_31 <= next && next + HEADER < |img|
  }

  // readdir reads a word above the signed range as the end; until then both read the same headers, and
  // there lookup goes on.
  lemma {:induction false} ListingIsPrefix(img: seq<Byte>, at: nat, c: seq<nat>, d: seq<nat>)
    requires IsImage(img) && IsChain(img, at, c, true) && IsChain(img, at, d, false)
    ensures c <= d && (|c| < |d| <==> c != [] && BeyondInt(img, c[|c| - 1]))
    ensures forall i :: 0 < i < |c| ==> c[i] < TWO_31
    decreases |c|
  {
    if c != [] && d != [] {
      var next := NextAt(img, at, false);
      if NextAt(img, at, true) == next {
        ListingIsPrefix(img, next, c[1..], d[1..]);
        assert c == [at] + c[1..] && d == [at] + d[1..];
      } else {
        assert Ended(img, NextAt(img, at, true)) && c[1..] == [];
        assert c == [at] && d[0] == at;
      }
    }
  }

  // A search stops at the first match, if every comparison before it stays inside the image.
  ghost predicate StopsAt(img: seq<Byte>, d: seq<nat>, k: nat, name: seq<Byte>)
    requires k < |d|
  {
    && |name| <= MAXFN && (forall i :: 0 <= i < k ==> Fits(img, d[i], name) && !Matches(img, d[i], name))
    && Fits(img, d[k], name) && Matches(img, d[k], name)
  }

  lemma {:induction false} FoundInChain(img: seq<Byte>, at: nat, d: seq<nat>, name: seq<Byte>, exec: seq<Byte>)
    requires forall i :: 0 <= i < |d| ==> Readable(img, d[i])
    ensures var r := Search(img, at, d, name, exec);
            r.Found? ==> r.entry in d && Readable(img, r.entry) && r.target == Target(img, r.entry)
    decreases |d|
  {
    if d != [] {
      FoundInChain(img, NextAt(img, d[0], false), d[1..], name, exec);
    }
  }

  lemma {:induction false} SearchStops(img: seq<Byte>, at: nat, d: seq<nat>, k: nat, name: seq<Byte>, exec: seq<Byte>)
    requires IsChain(img, at, d, false) && (forall i :: 0 <= i < |d| ==> Readable(img, d[i])) && k < |d|
    ensures (Search(img, at, d, name, exec).Found? && Search(img, at, d, name, exec).entry == d[k])
            <==> StopsAt(img, d, k, name)
    ensures StopsAt(img, d, k, name) ==>
              Search(img, at, d, name, exec) == Found(d[k], Target(img, d[k]), name == exec)
    decreases k
  {
    if k > 0 {
      ChainDistinct(img, at, d, false, 0, k);
      var next := NextAt(img, at, false);
      SearchStops(img, next, d[1..], k - 1, name, exec);
      assert d[1..][k - 1] == d[k];
      StopsLater(img, d, k, name);
    } else {
      FoundInChain(img, NextAt(img, d[0], false), d[1..], name, exec);
      forall j | 0 <= j < |d[1..]| ensures d[1..][j] != d[0] {
        ChainDistinct(img, at, d, false, 0, j + 1);
      }
    }
  }

  // Main result: a name that no header of the chain has is reported missing if the chain ends with a link to
  // nothing or past the image, and otherwise the header that breaks it off is a read error.
  lemma {:induction false} SearchMisses(img: seq<Byte>, at: nat, d: seq<nat>, name: seq<Byte>, exec: seq<Byte>)
    requires IsChain(img, at, d, false) && (forall i :: 0 <= i < |d| ==> Readable(img, d[i])) && d != []
    requires |name| <= MAXFN && forall i :: 0 <= i < |d| ==> Fits(img, d[i], name) && !Matches(img, d[i], name)
    ensures Readable(img, d[|d| - 1])
    ensures var last := Word(img, d[|d| - 1]);
            Search(img, at, d, name, exec) == if last < 16 || last - last % 16 >= |img| then NotFound else IoError
    decreases |d|
  {
    if |d| > 1 {
      SearchMisses(img, NextAt(img, at, false), d[1..], name, exec);
    }
  }

  lemma StopsLater(img: seq<Byte>, d: seq<nat>, k: nat, name: seq<Byte>)
    requires 0 < k < |d|
    ensures StopsAt(img, d, k, name) <==>
            Fits(img, d[0], name) && !Matches(img, d[0], name) && StopsAt(img, d[1..], k - 1, name)
  {
    var e := d[1..];
    assert e[k - 1] == d[k] && forall i :: 0 <= i < k - 1 ==> e[i] == d[i + 1];
    if StopsAt(img, e, k - 1, name) && Fits(img, d[0], name) && !Matches(img, d[0], name) {
      forall i | 0 <= i < k ensures Fits(img, d[i], name) && !Matches(img, d[i], name) {
        assert i > 0 ==> d[i] == e[i - 1];
      }
    }
  }

  // The name that readdir shows for the k-th header, or would show were it not hidden, leads lookup
  // back to that header exactly when the name was not cut, no earlier header has the same whole
  // name, and no earlier header lies within the length of the name of the end of the image.
  lemma ShownNameFound(img: seq<Byte>, dir: nat, c: seq<nat>, d: seq<nat>, k: nat, exec: seq<Byte>)
    requires IsImage(img) && IsDirectory(img, dir, c, true) && IsDirectory(img, dir, d, false) && k < |c|
    requires forall i :: 0 <= i < |c| ==> Readable(img, c[i])
    ensures var name, r := EntryAt(img, c[k]).name, SearchDirectory(img, dir, d, EntryAt(img, c[k]).name, exec);
            (r.Found? && r.entry == c[k]) <==>
            && Terminated(img, c[k])
            && forall i :: 0 <= i < k ==> Fits(img, c[i], name) && !(Name(img, c[i]) == name && Terminated(img, c[i]))
  {
    var name := Name(img, c[k]);
    ListingIsPrefix(img, FirstAt(img, dir), c, d);
    ChainReadable(img, FirstAt(img, dir), d, false);
    SearchStops(img, FirstAt(img, dir), d, k, name, exec);
    forall i | 0 <= i <= k && Fits(img, c[i], name)
      ensures Matches(img, d[i], name) <==> Name(img, c[i]) == name && Terminated(img, c[i])
    {
      MatchesIsName(img, c[i], name);
    }
  }

  // Where no name is cut and no header is too near the end, every name listed is found, and at the
  // first header that lists it.
  lemma EveryShownNameFound(img: seq<Byte>, dir: nat, c: seq<nat>, d: seq<nat>, k: nat, exec: seq<Byte>)
      returns (i: nat)
    requires IsImage(img) && IsDirectory(img, dir, c, true) && IsDirectory(img, dir, d, false) && k < |c|
    requires forall j :: 0 <= j < |c| ==> Readable(img, c[j]) && Terminated(img, c[j]) && c[j] + HEADER + MAXFN <= |img|
    ensures i <= k && Name(img, c[i]) == Name(img, c[k])
    ensures forall j :: 0 <= j < i ==> Name(img, c[j]) != Name(img, c[k])
    ensures var r := SearchDirectory(img, dir, d, Name(img, c[k]), exec); r.Found? && r.entry == c[i]
  {
    i := FirstNamed(img, c, k);
    ShownNameFound(img, dir, c, d, i, exec);
    var name := Name(img, c[i]);
    assert |name| < MAXFN;
    assert forall j :: 0 <= j < i ==> Fits(img, c[j], name) && Name(img, c[j]) != name;
  }

  lemma FirstNamed(img: seq<Byte>, c: seq<nat>, k: nat) returns (i: nat)
    requires k < |c| && forall j :: 0 <= j < |c| ==> Readable(img, c[j])
    ensures i <= k && Name(img, c[i]) == Name(img, c[k])
    ensures forall j :: 0 <= j < i ==> Name(img, c[j]) != Name(img, c[k])
  {
    i := 0;
    while Name(img, c[i]) != Name(img, c[k])
      invariant i <= k && forall j :: 0 <= j < i ==> Name(img, c[j]) != Name(img, c[k])
      decreases k - i
    {
      i := i + 1;
    }
  }

  // Offsets in header words are aligned, widened or not.
  lemma OffsetsAligned(w: nat)
    ensures Masked(w) % 16 == 0 && SignExtend(Masked(w)) % 16 == 0
  {
    var q := w / 16;
    assert w == 16 * q + w % 16;
    MultipleOf16(q);
    MultipleOf16(q + 0xFFF_FFFF_F000_0000);
  }

  lemma MultipleOf16(q: nat)
    ensures 16 * q % 16 == 0
  {
  }

  lemma {:induction false} ChainAligned(img: seq<Byte>, at: nat, c: seq<nat>, k: nat)
    requires IsImage(img) && IsChain(img, at, c, true) && at % 16 == 0 && k < |c|
    ensures c[k] % 16 == 0 && c[k] < |img|
    decreases k
  {
    if k > 0 {
      OffsetsAligned(Word(img, at));
      ChainAligned(img, NextAt(img, at, true), c[1..], k - 1);
    }
  }

  // The inode number listed for a header is the offset whose inode lookup returns for it, except
  // where a link's word has bits set below the offset or the number does not fit a signed int.
  lemma ListedInode(img: seq<Byte>, dir: nat, c: seq<nat>, k: nat)
    requires IsImage(img) && IsDirectory(img, dir, c, true) && k < |c| && Readable(img, c[k])
    ensures EntryAt(img, c[k]).ino == Target(img, c[k]) <==>
            if IsHardLink(img, c[k]) then Word(img, c[k] + 4) % 16 == 0 && Word(img, c[k] + 4) < TWO_31
            else c[k] < TWO_31
  {
    OffsetsAligned(Word(img, Masked(dir) + 4));
    ChainAligned(img, FirstAt(img, dir), c, k);
  }

  // A name of MAXFN bytes or more is cut to one less and then has no terminator.
  lemma LongNameCut(img: seq<Byte>, at: nat)
    requires at + HEADER + MAXFN <= |img| && forall i :: at + HEADER <= i < at + HEADER + MAXFN ==> img[i] != 0
    ensures |Name(img, at)| == MAXFN - 1 && !Terminated(img, at)
  {
  }
}
