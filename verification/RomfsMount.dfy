/**
 Which romfs images are mounted, and two of them on which the driver does not do
 what one would expect.
 */
module RomfsMount {
  import opened Romfs
  import opened RomfsInodes

  const MAGIC: seq<Byte> := [45, 114, 111, 109, 49, 102, 115, 45]

  // The first n words added up.
  function WordSum(img: seq<Byte>, n: nat): nat
    requires 4 * n <= |img|
  {
    if n == 0 then 0 else WordSum(img, n - 1) + Word(img, 4 * (n - 1))
  }

  // romfs_checksum: the loop over the words, in unsigned 32-bit arithmetic.
  method Checksum(img: seq<Byte>, size: nat) returns (sum: nat)
    requires size <= |img|
    ensures sum == WordSum(img, size / 4) % 0x1_0000_0000
  {
    sum := 0;
    for k := 0 to size / 4
      invariant sum == WordSum(img, k) % 0x1_0000_0000
    {
      sum := (sum + Word(img, 4 * k)) % 0x1_0000_0000;
    }
  }

  // The root directory follows the superblock with the name of the volume.
  function RootAt(img: seq<Byte>): nat
    requires HEADER < |img|
  {
    MetaSize(img, 0)
  }

  // An image that the driver mounts, with a directory for its root.
  ghost predicate Mounts(img: seq<Byte>) {
    && IsImage(img) && HEADER < |img| && img[..8] == MAGIC && Word(img, 8) == |img|
    && WordSum(img, (if |img| < 512 then |img| else 512) / 4) % 0x1_0000_0000 == 0
    && InodeAt(img, RootAt(img)).Inode? && InodeAt(img, RootAt(img)).kind == DIRECTORY
  }

  // ---- Two images ----

  // The first 64 bytes of both: the superblock, without a volume name, and the root directory.
  function FrontByte(i: nat, size: Byte, check: seq<Byte>): Byte
    requires |check| == 4
  {
    if i < 8 then MAGIC[i] else if i == 11 then size else if 12 <= i < 16 then check[i - 12]
    else if i == 35 then 9 else if i == 39 then 64 else if i == 48 then 46 else 0
  }

  ghost predicate HasFront(img: seq<Byte>, size: Byte, check: seq<Byte>) {
    |check| == 4 && 80 < |img| == size && forall i :: 0 <= i < 64 ==> img[i] == FrontByte(i, size, check)
  }

  lemma ZeroWord(img: seq<Byte>, at: nat)
    requires at + 4 <= |img| && img[at] == img[at + 1] == img[at + 2] == img[at + 3] == 0
    ensures Word(img, at) == 0
  {
  }

  lemma FourWords(img: seq<Byte>, n: nat)
    requires 4 * n + 16 <= |img|
    ensures WordSum(img, n + 4)
         == WordSum(img, n) + Word(img, 4 * n) + Word(img, 4 * n + 4) + Word(img, 4 * n + 8) + Word(img, 4 * n + 12)
  {
    assert WordSum(img, n + 1) == WordSum(img, n) + Word(img, 4 * n);
    assert WordSum(img, n + 2) == WordSum(img, n + 1) + Word(img, 4 * n + 4);
    assert WordSum(img, n + 3) == WordSum(img, n + 2) + Word(img, 4 * n + 8);
    assert WordSum(img, n + 4) == WordSum(img, n + 3) + Word(img, 4 * n + 12);
  }

  // What it adds to the checksum.
  lemma FrontSum(img: seq<Byte>, size: Byte, check: seq<Byte>)
    requires HasFront(img, size, check)
    ensures WordSum(img, 16) == 0x8cd8e29a + 73 + size as int + Word(check, 0)
  {
    assert Word(img, 0) == 0x2d726f6d && Word(img, 4) == 0x3166732d && Word(img, 8) == size as int;
    assert Word(img, 12) == Word(check, 0);
    FourWords(img, 0);
    ZeroWord(img, 16);
    ZeroWord(img, 20);
    ZeroWord(img, 24);
    ZeroWord(img, 28);
    FourWords(img, 4);
    assert Word(img, 32) == 9 && Word(img, 36) == 64;
    ZeroWord(img, 40);
    ZeroWord(img, 44);
    FourWords(img, 8);
    assert Word(img, 48) == 0x2e000000;
    ZeroWord(img, 52);
    ZeroWord(img, 56);
    ZeroWord(img, 60);
    FourWords(img, 12);
  }

  // Such an image is mounted if its checksum is right, and its root directory starts with the entry at 64.
  lemma FrontMounts(img: seq<Byte>, size: Byte, check: seq<Byte>)
    requires HasFront(img, size, check) && WordSum(img, |img| / 4) % 0x1_0000_0000 == 0
    ensures Mounts(img) && RootAt(img) == 32 && Masked(32) == 32 && FirstAt(img, 32) == 64
  {
    assert img[..8] == MAGIC;
    assert Word(img, 8) == size as int && Word(img, 32) == 9 && Word(img, 36) == 64;
    assert img[16] == 0;
  }

  // A stretch of equal words.
  ghost predicate WordIs(img: seq<Byte>, k: nat, w: nat) { 4 * k + 4 <= |img| && Word(img, 4 * k) == w }

  lemma {:induction false} SameWords(img: seq<Byte>, a: nat, n: nat, w: nat, product: nat)
    requires 4 * (a + n) <= |img| && product == n * w
    requires forall k :: a <= k < a + n ==> WordIs(img, k, w)
    ensures WordSum(img, a + n) == WordSum(img, a) + product
    decreases n
  {
    if n > 0 {
      assert (n - 1) * w == n * w - w;
      assert WordIs(img, a + n - 1, w);
      SameWords(img, a, n - 1, w, (n - 1) * w);
    }
  }

  // ---- A name that is listed and not found ----

  const LONG_CHECK: seq<Byte> := [70, 250, 240, 27]

  // The only file of the root directory has a name of 128 letters.
  function LongNamed(): (img: seq<Byte>)
    ensures HasFront(img, 224, LONG_CHECK) && img[67] == 2
    ensures forall i :: 64 <= i < 80 && i != 67 ==> img[i] == 0
    ensures forall i :: 80 <= i < 208 ==> img[i] == 97
    ensures forall i :: 208 <= i < 224 ==> img[i] == 0
  {
    seq(224, i requires 0 <= i => if i < 64 then FrontByte(i, 224, LONG_CHECK)
                                  else if i == 67 then 2 else if 80 <= i < 208 then 97 else 0)
  }

  lemma LongNamedMounts(img: seq<Byte>)
    requires img == LongNamed()
    ensures Mounts(img) && RootAt(img) == 32 && FirstAt(img, 32) == 64 && Word(img, 64) == 2
  {
    FrontSum(img, 224, LONG_CHECK);
    assert Word(LONG_CHECK, 0) == 0x46faf01b;
    assert Word(img, 64) == 2;
    ZeroWord(img, 68);
    ZeroWord(img, 72);
    ZeroWord(img, 76);
    FourWords(img, 16);
    SameWords(img, 20, 32, 0x61616161, 32 * 0x61616161);
    SameWords(img, 52, 4, 0, 0);
    FrontMounts(img, 224, LONG_CHECK);
  }

  // The name listed for it is cut, and lookup does not find that name.
  lemma CutNameNotFound(img: seq<Byte>, exec: seq<Byte>)
    requires img == LongNamed()
    ensures Mounts(img) && RootAt(img) == 32
    ensures IsDirectory(img, 32, [64], true) && IsDirectory(img, 32, [64], false) && Readable(img, 64)
    ensures !SearchDirectory(img, 32, [64], Name(img, 64), exec).Found?
  {
    LongNamedMounts(img);
    assert NextAt(img, 64, true) == 0 && NextAt(img, 64, false) == 0;
    LongNameCut(img, 64);
    ShownNameFound(img, 32, [64], [64], 0, exec);
    FoundInChain(img, 64, [64], Name(img, 64), exec);
  }

  // ---- A lookup that faults ----

  const DEAD_CHECK: seq<Byte> := [251, 39, 12, 189]

  // The only entry of the root directory is a hard link named x to an offset outside the image.
  function DeadLink(): (img: seq<Byte>)
    ensures HasFront(img, 96, DEAD_CHECK) && img[70] == 16 && img[80] == 120
    ensures forall i :: 64 <= i < 96 && i != 70 && i != 80 ==> img[i] == 0
  {
    seq(96, i requires 0 <= i => if i < 64 then FrontByte(i, 96, DEAD_CHECK)
                                 else if i == 70 then 16 else if i == 80 then 120 else 0)
  }

  lemma DeadLinkMounts(img: seq<Byte>)
    requires img == DeadLink()
    ensures Mounts(img) && RootAt(img) == 32 && FirstAt(img, 32) == 64 && Word(img, 64) == 0 && Word(img, 68) == 4096
  {
    FrontSum(img, 96, DEAD_CHECK);
    assert Word(DEAD_CHECK, 0) == 0xfb270cbd;
    ZeroWord(img, 64);
    assert Word(img, 68) == 4096;
    ZeroWord(img, 72);
    ZeroWord(img, 76);
    FourWords(img, 16);
    assert Word(img, 80) == 0x78000000;
    ZeroWord(img, 84);
    ZeroWord(img, 88);
    ZeroWord(img, 92);
    FourWords(img, 20);
    FrontMounts(img, 96, DEAD_CHECK);
  }

  // Looked up as the executable file, it makes lookup fault.
  lemma DeadLinkFaults(img: seq<Byte>)
    requires img == DeadLink()
    ensures Mounts(img) && RootAt(img) == 32 && IsDirectory(img, 32, [64], false) && IsLinks(img, 64, [64])
    ensures SearchDirectory(img, 32, [64], [120], [120]) == Found(64, 4096, true) && Readable(img, 64)
    ensures AnswerOf(img, Found(64, 4096, true), [64]) == Faults
  {
    DeadLinkMounts(img);
    assert NextAt(img, 64, false) == 0 && LinkedTo(img, 64) == 4096;
    assert IsLinks(img, 4096, []);
    assert img[80..81] == [120];
  }
}
