/**
 Reading file pages of a romfs image, with the bytes of one chosen file moved up
 by one.
 */
module RomfsPages {
  import opened Romfs

  const PAGE := 4096

  function Shift(b: Byte): Byte { (b + 1) % 256 }
  function Unshift(b: Byte): Byte { (b + 255) % 256 }

  function ShiftAll(s: seq<Byte>, secret: bool): seq<Byte> {
    seq(|s|, i requires 0 <= i < |s| => if secret then Shift(s[i]) else s[i])
  }

  // How much of page index belongs to a file of this size.
  function Fill(size: nat, index: nat): nat {
    if index * PAGE >= size then 0 else if size - index * PAGE > PAGE then PAGE else size - index * PAGE
  }

  // The page lies past the file, or its part of the file lies inside the image.
  predicate PageReadable(img: seq<Byte>, data: nat, size: nat, index: nat) {
    Fill(size, index) > 0 ==> data + index * PAGE + Fill(size, index) <= |img|
  }

  function Zeros(n: nat): seq<Byte> { seq(n, _ => 0) }

  // What the page should hold.
  function PageOf(img: seq<Byte>, data: nat, size: nat, index: nat, secret: bool): (p: seq<Byte>)
    requires PageReadable(img, data, size, index)
    ensures |p| == PAGE
  {
    var n := Fill(size, index);
    if n == 0 then Zeros(PAGE)
    else ShiftAll(img[data + index * PAGE..data + index * PAGE + n], secret) + Zeros(PAGE - n)
  }

  // The bytes of the secret file are shifted in the page.
  method ShiftPage(page: array<Byte>, fill: nat)
    requires fill <= page.Length
    modifies page
    ensures page[..] == ShiftAll(old(page[..fill]), true) + old(page[fill..])
  {
    for i := 0 to fill
      invariant forall k :: 0 <= k < i ==> page[k] == Shift(old(page[k]))
      invariant forall k :: i <= k < page.Length ==> page[k] == old(page[k])
    {
      page[i] := Shift(page[i]);
    }
  }

  // What is left of the page is cleared.
  method ClearRest(page: array<Byte>, fill: nat)
    requires fill <= page.Length
    modifies page
    ensures page[..] == old(page[..fill]) + Zeros(page.Length - fill)
  {
    for i := fill to page.Length
      invariant forall k :: 0 <= k < fill ==> page[k] == old(page[k])
      invariant forall k :: fill <= k < i ==> page[k] == 0
    {
      page[i] := 0;
    }
  }

  // romfs_dev_read into the page.
  method ReadInto(img: seq<Byte>, pos: nat, fill: nat, page: array<Byte>) returns (ok: bool)
    requires 0 < fill <= page.Length
    modifies page
    ensures ok <==> pos + fill <= |img|
    ensures ok ==> page[..fill] == img[pos..pos + fill]
  {
    if pos >= |img| || fill > |img| - pos {
      return false;
    }
    for i := 0 to fill
      invariant forall k :: 0 <= k < i ==> page[k] == img[pos + k]
    {
      page[i] := img[pos + i];
    }
    ok := true;
  }

  method ReadPage(img: seq<Byte>, data: nat, size: nat, index: nat, secret: bool, page: array<Byte>) returns (ok: bool)
    requires page.Length == PAGE
    modifies page
    ensures ok <==> PageReadable(img, data, size, index)
    ensures page[..] == if ok then PageOf(img, data, size, index, secret) else Zeros(PAGE)
  {
    var offset, fill := index * PAGE, 0;
    ok := true;
    if offset < size {
      fill := if size - offset > PAGE then PAGE else size - offset;
      ok := ReadInto(img, data + offset, fill, page);
      if !ok {
        fill := 0;
      }
      if secret && fill != 0 {
        ShiftPage(page, fill);
      }
    }
    ghost var filled := page[..fill];
    assert ok && fill > 0 ==> filled == ShiftAll(img[data + offset..data + offset + fill], secret);
    ClearRest(page, fill);
  }

  // The first n pages, one after the other.
  function Pages(img: seq<Byte>, data: nat, size: nat, n: nat, secret: bool): (p: seq<Byte>)
    requires data + size <= |img|
    ensures |p| == n * PAGE
  {
    if n == 0 then [] else Pages(img, data, size, n - 1, secret) + PageOf(img, data, size, n - 1, secret)
  }

  // The byte a reader should see at a position.
  function Seen(img: seq<Byte>, data: nat, size: nat, secret: bool, i: nat): Byte
    requires data + size <= |img|
  {
    if i >= size then 0 else if secret then Shift(img[data + i]) else img[data + i]
  }

  lemma PageAt(img: seq<Byte>, data: nat, size: nat, index: nat, secret: bool, k: nat)
    requires data + size <= |img| && k < PAGE
    ensures PageOf(img, data, size, index, secret)[k] == Seen(img, data, size, secret, index * PAGE + k)
  {
  }

  // The pages of a file are its bytes, shifted if it is the secret one, and zeros after its end.
  lemma {:induction false} PagesAreFile(img: seq<Byte>, data: nat, size: nat, n: nat, secret: bool, i: nat)
    requires data + size <= |img| && i < n * PAGE
    ensures Pages(img, data, size, n, secret)[i] == Seen(img, data, size, secret, i)
    decreases n
  {
    var before, page := Pages(img, data, size, n - 1, secret), PageOf(img, data, size, n - 1, secret);
    if i < |before| {
      PagesAreFile(img, data, size, n - 1, secret, i);
      assert (before + page)[i] == before[i];
    } else {
      var k := i - |before|;
      PageAt(img, data, size, n - 1, secret, k);
      assert (before + page)[i] == page[k];
    }
  }

  lemma ShiftBack(b: Byte)
    ensures Unshift(Shift(b)) == b
  {
  }

  // Shifting back the pages of the secret file gives the file.
  lemma SecretReadsBack(img: seq<Byte>, data: nat, size: nat, n: nat, i: nat)
    requires data + size <= |img| && i < size <= n * PAGE
    ensures Unshift(Pages(img, data, size, n, true)[i]) == img[data + i]
  {
    PagesAreFile(img, data, size, n, true, i);
    ShiftBack(img[data + i]);
  }
}
