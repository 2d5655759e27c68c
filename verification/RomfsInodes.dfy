/**
 From a header of a romfs image to its inode: hard links are followed to the file
 they stand for, and the place of its data is worked out.
 */
module RomfsInodes {
  import opened Romfs

  // The inode of the header at pos: where its data starts, its size, its type, and whether its mode
  // makes it executable.
  datatype Inode = Inode(pos: nat, data: nat, size: nat, kind: nat, exec: bool) | Unreadable

  const DIRECTORY := 1
  const REGULAR := 2
  const SYMLINK := 3

  predicate HasHeader(img: seq<Byte>, pos: nat) { pos + HEADER <= |img| }

  predicate IsLink(img: seq<Byte>, pos: nat)
    requires HasHeader(img, pos)
  {
    Word(img, pos) % 8 == 0
  }

  function LinkedTo(img: seq<Byte>, pos: nat): nat
    requires HasHeader(img, pos)
  {
    Masked(Word(img, pos + 4))
  }

  // The hard links met from pos on, up to a header that is none or cannot be read.
  ghost predicate IsLinks(img: seq<Byte>, pos: nat, links: seq<nat>)
    decreases |links|
  {
    if links == [] then HasHeader(img, pos) ==> !IsLink(img, pos)
    else
      && links[0] == pos && HasHeader(img, pos) && IsLink(img, pos)
      && IsLinks(img, LinkedTo(img, pos), links[1..])
  }

  // Where they lead.
  ghost function Followed(img: seq<Byte>, pos: nat, links: seq<nat>): nat
    requires IsLinks(img, pos, links)
    decreases |links|
  {
    if links == [] then pos else Followed(img, LinkedTo(img, pos), links[1..])
  }

  // The length of a header with its name, which may have MAXFN bytes here, and its terminator.
  function MetaSize(img: seq<Byte>, pos: nat): nat
    requires Readable(img, pos)
  {
    Masked(HEADER + Strnlen(img, pos + HEADER, MAXFN) + 1 + (HEADER - 1))
  }

  // The inode of a header that is not a link.
  function InodeAt(img: seq<Byte>, pos: nat): Inode {
    if !Readable(img, pos) then Unreadable
    else
      var kind, execBit := Word(img, pos) % 8, Word(img, pos) % 16 >= 8;
      Inode(pos, pos + MetaSize(img, pos),
            if kind == DIRECTORY then MetaSize(img, pos) else Word(img, pos + 8), kind,
            kind == SYMLINK || (execBit && (kind == DIRECTORY || kind == REGULAR)))
  }

  // romfs_iget.
  method Iget(img: seq<Byte>, at: nat, ghost links: seq<nat>) returns (r: Inode)
    requires IsLinks(img, at, links)
    ensures r == InodeAt(img, Followed(img, at, links))
  {
    var pos := at;
    ghost var rest := links;
    while HasHeader(img, pos) && IsLink(img, pos)
      invariant IsLinks(img, pos, rest) && Followed(img, pos, rest) == Followed(img, at, links)
      decreases |rest|
    {
      pos := LinkedTo(img, pos);
      rest := rest[1..];
    }
    r := InodeAt(img, pos);
  }

  // Following links ends at something that is not a link, and following on from there stays there.
  lemma {:induction false} FollowedEnds(img: seq<Byte>, pos: nat, links: seq<nat>)
    requires IsLinks(img, pos, links)
    ensures var end := Followed(img, pos, links); IsLinks(img, end, []) && (HasHeader(img, end) ==> !IsLink(img, end))
    decreases |links|
  {
    if links != [] {
      FollowedEnds(img, LinkedTo(img, pos), links[1..]);
    }
  }

  // The chain of links from a header is unique, and so is the inode it leads to.
  lemma {:induction false} LinksUnique(img: seq<Byte>, pos: nat, a: seq<nat>, b: seq<nat>)
    requires IsLinks(img, pos, a) && IsLinks(img, pos, b)
    ensures a == b
    decreases |a|
  {
    if a != [] && b != [] {
      LinksUnique(img, LinkedTo(img, pos), a[1..], b[1..]);
      assert a == [pos] + a[1..] && b == [pos] + b[1..];
    }
  }

  // Following the first link before the inode is asked for, as lookup does, makes no difference.
  lemma FirstLinkTwice(img: seq<Byte>, at: nat, links: seq<nat>, after: seq<nat>)
    requires Readable(img, at) && IsLinks(img, at, links) && IsLinks(img, Target(img, at), after)
    ensures Followed(img, Target(img, at), after) == Followed(img, at, links)
  {
    LinksUnique(img, Target(img, at), after, if links == [] then [] else links[1..]);
  }

  // The data starts at the first multiple of 16 bytes after the name and its terminator, counted from
  // an aligned header.
  lemma DataAfterName(img: seq<Byte>, pos: nat)
    requires Readable(img, pos) && pos % 16 == 0
    ensures var data, end := InodeAt(img, pos).data, pos + HEADER + Strnlen(img, pos + HEADER, MAXFN) + 1;
            data % 16 == 0 && end <= data < end + 16
  {
  }

  // What the bytes of a header say: the low three bits of its fourth byte are the type and the next one makes
  // a file or directory executable; a symbolic link always is.  The size of a file is its third word, that
  // of a directory the length of its header and name.
  lemma InodeFields(img: seq<Byte>, pos: nat)
    requires Readable(img, pos)
    ensures var i, b := InodeAt(img, pos), img[pos + 3];
            && i.Inode? && i.pos == pos && i.kind == b as int % 8
            && (i.exec <==> b as int % 8 == 3 || ((b as int % 8 == 1 || b as int % 8 == 2) && b as int / 8 % 2 == 1))
            && (i.kind == DIRECTORY ==> i.size == i.data - pos)
            && (i.kind != DIRECTORY ==>
                  i.size == img[pos + 8] as int * 0x100_0000 + img[pos + 9] as int * 0x1_0000
                            + img[pos + 10] as int * 0x100 + img[pos + 11] as int)
  {
    LowByte(img, pos);
  }

  lemma LowByte(img: seq<Byte>, pos: nat)
    requires Readable(img, pos)
    ensures Word(img, pos) % 16 == img[pos + 3] as int % 16 && Word(img, pos) % 8 == img[pos + 3] as int % 8
    ensures Word(img, pos) % 16 >= 8 <==> img[pos + 3] as int / 8 % 2 == 1
  {
    var high := (img[pos] as int * 256 + img[pos + 1] as int) * 256 + img[pos + 2] as int;
    assert Word(img, pos) == 256 * high + img[pos + 3] as int;
  }

  // The type listed for a header that is not a hard link is that of the inode lookup gives for it.
  lemma ListedKind(img: seq<Byte>, at: nat)
    requires Readable(img, at)
    ensures EntryAt(img, at).kind == InodeAt(img, at).kind && (EntryAt(img, at).kind == 0 <==> IsLink(img, at))
  {
  }

  // What lookup gives for a name: the inode of the first header that matches, an error, or, where it
  // sets the mode of an inode that it did not get, a fault.
  datatype Answer = Answer(inode: Inode) | Absent | Failed | TooLong | Faults

  ghost function AnswerOf(img: seq<Byte>, found: Found, links: seq<nat>): Answer
    requires found.Found? ==> Readable(img, found.entry) && IsLinks(img, found.entry, links)
  {
    match found
    case NotFound => Absent
    case IoError => Failed
    case NameTooLong => TooLong
    case Found(entry, _, exec) =>
      var i := InodeAt(img, Followed(img, entry, links));
      if !i.Unreadable? then Answer(i.(exec := i.exec || exec)) else if exec then Faults else Failed
  }

  // romfs_lookup with the inode: the links of the header found are followed to the end.
  method LookupInode(img: seq<Byte>, dir: nat, name: seq<Byte>, exec: seq<Byte>, ghost chain: seq<nat>,
                     ghost links: nat -> seq<nat>)
    returns (r: Answer)
    requires IsDirectory(img, dir, chain, false)
    requires forall i :: 0 <= i < |chain| ==> IsLinks(img, chain[i], links(chain[i]))
    ensures var found := SearchDirectory(img, dir, chain, name, exec);
            && (found.Found? ==> Readable(img, found.entry) && IsLinks(img, found.entry, links(found.entry)))
            && r == AnswerOf(img, found, if found.Found? then links(found.entry) else [])
  {
    FoundReadable(img, dir, chain, name, exec);
    var found := Lookup(img, dir, name, exec, chain);
    match found
    case NotFound => r := Absent;
    case IoError => r := Failed;
    case NameTooLong => r := TooLong;
    case Found(entry, target, isExec) =>
      ghost var all := links(entry);
      ghost var after := if all == [] then [] else all[1..];
      FirstLinkTwice(img, entry, all, after);
      var inode := Iget(img, target, after);
      if isExec {
        // the mode is set without looking whether there is an inode
        r := if inode.Unreadable? then Faults else Answer(inode.(exec := true));
      } else {
        r := if inode.Unreadable? then Failed else Answer(inode);
      }
  }

  lemma FoundReadable(img: seq<Byte>, dir: nat, chain: seq<nat>, name: seq<Byte>, exec: seq<Byte>)
    requires IsDirectory(img, dir, chain, false)
    ensures var found := SearchDirectory(img, dir, chain, name, exec);
            found.Found? ==>
              found.entry in chain && Readable(img, found.entry) && found.target == Target(img, found.entry)
  {
    if Masked(dir) + HEADER <= |img| {
      ChainReadable(img, FirstAt(img, dir), chain, false);
      FoundInChain(img, FirstAt(img, dir), chain, name, exec);
    }
  }

  // Lookup faults exactly when the first header that matches is looked up under the executable name and
  // its hard links lead to a header that cannot be read.
  lemma FaultsExactlyWhen(img: seq<Byte>, dir: nat, chain: seq<nat>, name: seq<Byte>, exec: seq<Byte>,
                          links: nat -> seq<nat>)
    requires IsDirectory(img, dir, chain, false)
    requires forall i :: 0 <= i < |chain| ==> IsLinks(img, chain[i], links(chain[i]))
    ensures var found := SearchDirectory(img, dir, chain, name, exec);
            && (found.Found? ==> Readable(img, found.entry) && IsLinks(img, found.entry, links(found.entry)))
            && (AnswerOf(img, found, if found.Found? then links(found.entry) else []) == Faults <==>
                && name == exec
                && exists k :: 0 <= k < |chain| && StopsAt(img, chain, k, name)
                               && !Readable(img, Followed(img, chain[k], links(chain[k]))))
  {
    FoundReadable(img, dir, chain, name, exec);
    var found := SearchDirectory(img, dir, chain, name, exec);
    if Masked(dir) + HEADER <= |img| {
      ChainReadable(img, FirstAt(img, dir), chain, false);
      forall k | 0 <= k < |chain|
        ensures StopsAt(img, chain, k, name) <==> found.Found? && found.entry == chain[k]
        ensures StopsAt(img, chain, k, name) ==> found == Found(chain[k], Target(img, chain[k]), name == exec)
      {
        SearchStops(img, FirstAt(img, dir), chain, k, name, exec);
      }
      if found.Found? {
        var k :| 0 <= k < |chain| && chain[k] == found.entry;
        assert StopsAt(img, chain, k, name);
      }
    }
  }
}
