/** The two-slot configuration store of is_config.c on NOR flash, with power loss after any number
    of sector erases and byte programs. */
module ConfigStore {
  import opened Common
  import opened FlashCells

  const SECTOR: nat := 0x10000
  const SLOT: nat := 4 * SECTOR
  const HEAD: nat := 8
  const DATA_SIZE: nat := SLOT - HEAD

  type Word32 = x: int | 0 <= x < TWO32

  // The checksum of the boot loader, whose body is not part of this model.
  type Checksum = Data -> Word32

  // ---------- Flash cells ----------

  function And(a: nat, b: nat): nat
    decreases a
  {
    if a == 0 then 0 else 2 * And(a / 2, b / 2) + (a % 2) * (b % 2)
  }

  predicate AllOnes(a: nat) {
    a == 0 || (a % 2 == 1 && AllOnes(a / 2))
  }

  lemma {:induction false} AndBelow(a: nat, b: nat)
    ensures And(a, b) <= a
    decreases a
  {
    if a != 0 {
      AndBelow(a / 2, b / 2);
      assert (a % 2) * (b % 2) <= a % 2;
    }
  }

  lemma {:induction false} AndOnes(a: nat, b: nat)
    requires AllOnes(a) && b <= a
    ensures And(a, b) == b
    decreases a
  {
    if a != 0 {
      AndOnes(a / 2, b / 2);
    }
  }

  function Bit(a: nat, k: nat): nat
    decreases k
  {
    if k == 0 then a % 2 else Bit(a / 2, k - 1)
  }

  // A bit is left exactly where the cell and the byte programmed both have it.
  lemma {:induction false} AndBits(a: nat, b: nat, k: nat)
    ensures Bit(And(a, b), k) == 1 <==> Bit(a, k) == 1 && Bit(b, k) == 1
    decreases k
  {
    if a == 0 {
      NoBits(k);
    } else if k != 0 {
      AndBits(a / 2, b / 2, k - 1);
      OneBit(And(a / 2, b / 2), a % 2, b % 2);
    } else {
      OneBit(And(a / 2, b / 2), a % 2, b % 2);
    }
  }

  lemma {:induction false} NoBits(k: nat)
    ensures Bit(0, k) == 0
  {
    if k != 0 {
      NoBits(k - 1);
    }
  }

  lemma OneBit(high: nat, x: nat, y: nat)
    requires x < 2 && y < 2
    ensures (2 * high + x * y) / 2 == high && ((2 * high + x * y) % 2 == 1 <==> x == 1 && y == 1)
  {
    if x == 0 {
      assert x * y == 0;
    } else {
      assert x * y == y;
    }
  }

  // Programming can only turn ones into zeros.
  function Programmed(cell: Byte, b: Byte): Byte {
    AndBelow(cell, b);
    And(cell, b)
  }

  lemma ErasedTakesAny(b: Byte)
    ensures Programmed(255, b) == b
  {
    assert AllOnes(255) by {
      assert AllOnes(1) && AllOnes(3) && AllOnes(7) && AllOnes(15);
      assert AllOnes(31) && AllOnes(63) && AllOnes(127);
    }
    AndOnes(255, b);
  }

  // ---------- Images ----------

  // A 32-bit field, low byte first.
  function Field(x: nat): (s: Data)
    requires x < TWO32
    ensures |s| == 4
  {
    [LowByte(x), LowByte(x / 256), LowByte(x / 65536), LowByte(x / 16777216)]
  }

  function LowByte(x: nat): Byte {
    x % 256
  }

  function Number(s: Data): nat
    requires |s| == 4
  {
    var b0: int, b1: int, b2: int, b3: int := s[0], s[1], s[2], s[3];
    b0 + 256 * b1 + 65536 * b2 + 16777216 * b3
  }

  lemma FieldIsReadBack(x: Word32)
    ensures Number(Field(x)) == x
  {
    var x1, x2, x3 := x / 256, x / 65536, x / 16777216;
    assert x2 == x1 / 256 && x3 == x2 / 256 && x3 % 256 == x3;
    assert x == 256 * x1 + LowByte(x) && x1 == 256 * x2 + LowByte(x1) && x2 == 256 * x3 + LowByte(x2);
  }

  // struct IS_CONFIG over a buffer filled with 0xFF.
  function Image(crc: Checksum, d: Data): (s: Data)
    requires |d| <= DATA_SIZE
    ensures |s| == SLOT
  {
    Field(crc(d)) + Field(|d|) + d + Blank(DATA_SIZE - |d|)
  }

  // What do_relocate_is_config accepts.
  function Decode(crc: Checksum, cells: Data): (r: Option<Data>)
    requires |cells| == SLOT
    ensures r.Some? ==> |r.value| <= DATA_SIZE
  {
    var len := Number(cells[4..8]);
    if len > DATA_SIZE then None
    else if crc(cells[8..8 + len]) != Number(cells[..4]) then None
    else Some(cells[8..8 + len])
  }

  lemma ImageDecodes(crc: Checksum, d: Data)
    requires |d| <= DATA_SIZE
    ensures Decode(crc, Image(crc, d)) == Some(d)
  {
    var s := Image(crc, d);
    assert s[..4] == Field(crc(d)) && s[4..8] == Field(|d|) && s[8..8 + |d|] == d;
    FieldIsReadBack(crc(d));
    FieldIsReadBack(|d|);
  }

  // The least number of sectors that hold head and data.
  function Sectors(len: nat): (i: nat)
    requires len <= DATA_SIZE
    ensures 1 <= i <= 4 && (i - 1) * SECTOR < len + HEAD <= i * SECTOR
  {
    (len + HEAD + SECTOR - 1) / SECTOR
  }

  // ---------- One partition, erased and rewritten until the power fails ----------

  function Steps(i: nat): nat {
    i + i * SECTOR
  }

  // The partition after k steps of erasing i sectors and programming the first i sectors of an image.
  function Burned(cells: Data, image: Data, i: nat, k: nat): (s: Data)
    requires |cells| == SLOT && |image| == SLOT && i <= 4
    ensures |s| == SLOT
  {
    if k <= i then Blank(k * SECTOR) + cells[k * SECTOR..]
    else
      var m := Min(k - i, i * SECTOR);
      image[..m] + Blank(i * SECTOR - m) + cells[i * SECTOR..]
  }

  lemma BurnedNothing(cells: Data, image: Data, i: nat)
    requires |cells| == SLOT && |image| == SLOT && i <= 4
    ensures Burned(cells, image, i, 0) == cells
  {
  }

  class Partition {
    var cells: Data

    // mtd_erase of count sectors from the start.
    method Erase(count: nat, power: nat) returns (left: nat)
      requires |cells| == SLOT && count <= 4
      modifies this
      ensures left == if power < count then 0 else power - count
      ensures cells == Blank(Min(power, count) * SECTOR) + old(cells)[Min(power, count) * SECTOR..]
    {
      left := power;
      var i := 0;
      while i < count && left > 0
        invariant i <= count && i + left == power
        invariant cells == Blank(i * SECTOR) + old(cells)[i * SECTOR..]
      {
        ghost var before := cells;
        cells := cells[..i * SECTOR] + Blank(SECTOR) + cells[(i + 1) * SECTOR..];
        assert before[(i + 1) * SECTOR..] == old(cells)[(i + 1) * SECTOR..];
        assert before[..i * SECTOR] + Blank(SECTOR) == Blank((i + 1) * SECTOR);
        i, left := i + 1, left - 1;
      }
    }

    // mtd_write from the start.
    method Write(image: Data, power: nat) returns (left: nat)
      requires |cells| == SLOT && |image| <= SLOT
      modifies this
      ensures left == if power < |image| then 0 else power - |image|
      ensures |cells| == SLOT && forall p | 0 <= p < SLOT ::
        cells[p] == if p < Min(power, |image|) then Programmed(old(cells)[p], image[p]) else old(cells)[p]
    {
      hide Programmed;
      left := power;
      var i := 0;
      while i < |image| && left > 0
        invariant i <= |image| && i + left == power && |cells| == SLOT
        invariant forall p | 0 <= p < SLOT ::
          cells[p] == if p < i then Programmed(old(cells)[p], image[p]) else old(cells)[p]
      {
        cells := cells[i := Programmed(cells[i], image[i])];
        i, left := i + 1, left - 1;
      }
    }

    // part_erase and part_write, for the first sector count that holds the configuration.
    method Burn(image: Data, len: nat, power: nat) returns (left: nat)
      requires |cells| == SLOT && |image| == SLOT && len <= DATA_SIZE
      modifies this
      ensures cells == Burned(old(cells), image, Sectors(len), power)
      ensures left == if power < Steps(Sectors(len)) then 0 else power - Steps(Sectors(len))
    {
      hide Programmed;
      left := power;
      for i := 1 to 5
        invariant i <= Sectors(len) && left == power && cells == old(cells)
      {
        if len + HEAD <= i * SECTOR {
          left := Erase(i, left);
          ghost var erased := cells;
          left := Write(image[..i * SECTOR], left);
          forall b: Byte ensures Programmed(255, b) == b {
            ErasedTakesAny(b);
          }
          assert i == Sectors(len);
          assert cells == Burned(old(cells), image, i, power);
          return;
        }
      }
    }
  }

  // ---------- Both partitions ----------

  datatype Flash = Flash(main: Data, backup: Data) {
    predicate Valid() {
      |main| == SLOT && |backup| == SLOT
    }
  }

  // What fread takes of the file.
  function Cut(file: Data): (d: Data)
    ensures |d| <= DATA_SIZE
  {
    file[..Min(|file|, DATA_SIZE)]
  }

  function SlotSteps(d: Data): nat
    requires |d| <= DATA_SIZE
  {
    Steps(Sectors(|d|))
  }

  // save_is_config cut off after k steps: backup first, then main.
  function SaveFlash(crc: Checksum, flash: Flash, d: Data, k: nat): (f: Flash)
    requires flash.Valid() && |d| <= DATA_SIZE
    ensures f.Valid()
  {
    var image, i, n := Image(crc, d), Sectors(|d|), SlotSteps(d);
    Flash(if k < n then flash.main else Burned(flash.main, image, i, k - n), Burned(flash.backup, image, i, k))
  }

  // What a start from this flash gives out.
  function Recover(crc: Checksum, flash: Flash): (r: Option<Data>)
    requires flash.Valid()
  {
    if Decode(crc, flash.main).Some? then Decode(crc, flash.main) else Decode(crc, flash.backup)
  }

  // Steps that relocate_is_config spends on the main partition.
  function RepairSteps(crc: Checksum, flash: Flash): nat
    requires flash.Valid()
  {
    if Decode(crc, flash.main).Some? || Decode(crc, flash.backup).None? then 0
    else SlotSteps(Decode(crc, flash.backup).value)
  }

  // relocate_is_config cut off after k steps.
  function BootFlash(crc: Checksum, flash: Flash, k: nat): (f: Flash)
    requires flash.Valid()
    ensures f.Valid()
  {
    if RepairSteps(crc, flash) == 0 then flash
    else flash.(main := Burned(flash.main, flash.backup, Sectors(|Decode(crc, flash.backup).value|), k))
  }

  datatype Status = Ok | Failed

  class ConfigStore {
    const main: Partition
    const backup: Partition
    const crc: Checksum

    ghost predicate Valid()
      reads main, backup
    {
      main != backup && |main.cells| == SLOT && |backup.cells| == SLOT
    }

    ghost function Contents(): Flash
      reads main, backup
    {
      Flash(main.cells, backup.cells)
    }

    constructor (main: Partition, backup: Partition, crc: Checksum)
      requires main != backup && |main.cells| == SLOT && |backup.cells| == SLOT
      ensures Valid() && this.main == main && this.backup == backup && this.crc == crc
    {
      this.main, this.backup, this.crc := main, backup, crc;
    }

    // do_relocate_is_config: the checked data of one partition, and the buffer it was read into.
    method ReadSlot(part: Partition) returns (r: Option<Data>, image: Data)
      requires |part.cells| == SLOT
      ensures r == Decode(crc, part.cells) && image == part.cells
    {
      image := part.cells;
      var len := Number(image[4..8]);
      if len > DATA_SIZE {
        return None, image;
      }
      var sum := crc(image[8..8 + len]);
      if sum != Number(image[..4]) {
        return None, image;
      }
      r := Some(image[8..8 + len]);
    }

    // relocate_is_config; the file written at the path is the second result.
    method Relocate(power: nat) returns (ret: Status, file: Option<Data>)
      requires Valid()
      modifies main
      ensures Valid() && Contents() == BootFlash(crc, old(Contents()), power)
      ensures file == Recover(crc, old(Contents())) && ret == Ok
    {
      hide Decode, Burned;
      var image;
      file, image := ReadSlot(main);
      if file.Some? {
        return Ok, file;
      }
      file, image := ReadSlot(backup);
      if file.None? {
        return Ok, None;
      }
      var left := main.Burn(image, |file.value|, power);
      ret := Ok;
    }

    // save_is_config.
    method Save(file: Data, power: nat) returns (ret: Status)
      requires Valid()
      modifies main, backup
      ensures Valid()
      ensures file == [] ==> ret == Failed && Contents() == old(Contents())
      ensures file != [] ==> ret == Ok && Contents() == SaveFlash(crc, old(Contents()), Cut(file), power)
    {
      hide Burned, Image;
      var d := Cut(file);
      if |d| == 0 {
        return Failed;
      }
      var image := Image(crc, d);
      BurnedNothing(main.cells, image, Sectors(|d|));
      var left := backup.Burn(image, |d|, power);
      left := main.Burn(image, |d|, left);
      ret := Ok;
    }
  }

  // ---------- Torn images ----------

  // The data as far as it was programmed, the rest still erased.
  function Torn(d: Data, j: nat): (t: Data)
    requires j <= |d|
    ensures |t| == |d|
  {
    d[..j] + Blank(|d| - j)
  }

  // The checksum tells every torn copy of d from d.
  ghost predicate TearProof(crc: Checksum, d: Data) {
    forall j | 0 <= j <= |d| :: crc(Torn(d, j)) == crc(d) ==> Torn(d, j) == d
  }

  // Before the length field is complete, its erased bytes make the length impossible.
  lemma TornHead(crc: Checksum, cells: Data)
    requires |cells| == SLOT && cells[7] == 255
    ensures Decode(crc, cells) == None
  {
    assert cells[4..8][3] == 255;
  }

  lemma TornData(crc: Checksum, cells: Data, image: Data, d: Data, i: nat, m: nat)
    requires |cells| == SLOT && |image| == SLOT && Decode(crc, image) == Some(d) && i == Sectors(|d|)
    requires 8 <= m <= i * SECTOR
    requires cells[..i * SECTOR] == image[..m] + Blank(i * SECTOR - m)
    ensures var t := Torn(d, Min(m - 8, |d|));
      Decode(crc, cells) == if crc(t) == crc(d) then Some(t) else None
  {
    var t := Torn(d, Min(m - 8, |d|));
    var written, len := cells[..i * SECTOR], |d|;
    SameHead(cells, image, written, m);
    forall p | 0 <= p < len ensures cells[8 + p] == t[p] {
      assert cells[8 + p] == written[8 + p];
      assert 8 + p < m ==> written[8 + p] == image[8 + p] && image[8 + p] == image[8..8 + len][p];
    }
    assert cells[8..8 + len] == t;
  }

  // Head fields that were written in full.
  lemma SameHead(cells: Data, image: Data, written: Data, m: nat)
    requires |cells| == SLOT && |image| == SLOT && 8 <= m <= |written| <= SLOT
    requires cells[..|written|] == written && written[..m] == image[..m]
    ensures cells[..4] == image[..4] && cells[4..8] == image[4..8]
  {
    forall p | 0 <= p < 8 ensures cells[p] == image[p] {
      assert cells[p] == cells[..|written|][p] == written[..m][p] == image[..m][p];
    }
  }

  // After k steps the partition being rewritten can be read: the header is complete, and so is the
  // data, but for bytes that are 0xFF anyway.
  predicate Readable(d: Data, k: nat)
    requires |d| <= DATA_SIZE
  {
    var i := Sectors(|d|);
    var m := Min(k - Min(i, k), i * SECTOR);
    m >= HEAD && Torn(d, Min(m - HEAD, |d|)) == d
  }

  // Any number of steps leaves the old contents, nothing acceptable, or d.
  lemma BurnedDecodes(crc: Checksum, cells: Data, image: Data, d: Data, k: nat)
    requires |cells| == SLOT && |image| == SLOT && Decode(crc, image) == Some(d) && TearProof(crc, d)
    ensures var r := Decode(crc, Burned(cells, image, Sectors(|d|), k));
      && (k > 0 ==> r == if Readable(d, k) then Some(d) else None)
      && (k >= SlotSteps(d) ==> r == Some(d) && Readable(d, k))
  {
    hide Decode, Torn;
    var i := Sectors(|d|);
    var b := Burned(cells, image, i, k);
    if k == 0 {
    } else if k <= i {
      assert b[7] == 255;
      TornHead(crc, b);
    } else {
      var m := Min(k - i, i * SECTOR);
      if m < 8 {
        assert b[7] == 255;
        TornHead(crc, b);
      } else {
        TornData(crc, b, image, d, i, m);
        WholeIsNotTorn(d);
      }
    }
  }

  lemma WholeIsNotTorn(d: Data)
    ensures Torn(d, |d|) == d
  {
  }

  // ---------- One save or one start, cut off anywhere ----------

  // A running system has its configuration in main.
  lemma SaveRecovers(crc: Checksum, flash: Flash, c: Data, d: Data, k: nat)
    requires flash.Valid() && |d| <= DATA_SIZE && TearProof(crc, d)
    requires Decode(crc, flash.main) == Some(c)
    ensures Recover(crc, SaveFlash(crc, flash, d, k)) == Some(if k <= SlotSteps(d) then c else d)
    ensures k >= 2 * SlotSteps(d) ==> Decode(crc, SaveFlash(crc, flash, d, k).main) == Some(d)
  {
    hide Decode, Burned, Image, TearProof;
    var n, image := SlotSteps(d), Image(crc, d);
    ImageDecodes(crc, d);
    BurnedDecodes(crc, flash.backup, image, d, k);
    if k == n {
      BurnedNothing(flash.main, image, Sectors(|d|));
    } else if k > n {
      BurnedDecodes(crc, flash.main, image, d, k - n);
    }
  }

  // Exactly the checksums that catch every torn copy make the switch from c to d clean.
  lemma SaveRecoversExactly(crc: Checksum, flash: Flash, c: Data, d: Data)
    requires flash.Valid() && |d| <= DATA_SIZE && Decode(crc, flash.main) == Some(c)
    ensures TearProof(crc, d) <==>
      forall k: nat :: Recover(crc, SaveFlash(crc, flash, d, k)) == Some(if k <= SlotSteps(d) then c else d)
  {
    hide Decode, Burned, Recover, SaveFlash;
    if TearProof(crc, d) {
      forall k: nat ensures Recover(crc, SaveFlash(crc, flash, d, k)) == Some(if k <= SlotSteps(d) then c else d) {
        SaveRecovers(crc, flash, c, d, k);
      }
    } else {
      var j :| 0 <= j <= |d| && crc(Torn(d, j)) == crc(d) && Torn(d, j) != d;
      TornCopyIsTaken(crc, flash, d, j);
      var k := SlotSteps(d) + Sectors(|d|) + HEAD + j;
      assert Recover(crc, SaveFlash(crc, flash, d, k)) != Some(d);
    }
  }

  lemma TornCopyIsTaken(crc: Checksum, flash: Flash, d: Data, j: nat)
    requires flash.Valid() && |d| <= DATA_SIZE && j <= |d| && crc(Torn(d, j)) == crc(d)
    ensures Recover(crc, SaveFlash(crc, flash, d, SlotSteps(d) + Sectors(|d|) + HEAD + j)) == Some(Torn(d, j))
  {
    hide Decode, Torn, Image;
    var i, image := Sectors(|d|), Image(crc, d);
    ImageDecodes(crc, d);
    TornData(crc, Burned(flash.main, image, i, i + HEAD + j), image, d, i, HEAD + j);
  }

  // From blank or damaged flash, a save cut off leaves the new file exactly when the backup can be
  // read, and nothing before.
  lemma FirstSave(crc: Checksum, flash: Flash, d: Data, k: nat)
    requires flash.Valid() && |d| <= DATA_SIZE && TearProof(crc, d) && Recover(crc, flash) == None
    ensures Recover(crc, SaveFlash(crc, flash, d, k)) == if Readable(d, k) then Some(d) else None
    ensures k >= SlotSteps(d) ==> Readable(d, k)
    ensures k >= 2 * SlotSteps(d) ==> Decode(crc, SaveFlash(crc, flash, d, k).main) == Some(d)
  {
    hide Decode, Burned, Image, TearProof, Torn;
    var n, image := SlotSteps(d), Image(crc, d);
    ImageDecodes(crc, d);
    BurnedDecodes(crc, flash.backup, image, d, k);
    BurnedNothing(flash.backup, image, Sectors(|d|));
    BurnedNothing(flash.main, image, Sectors(|d|));
    if k >= n {
      BurnedDecodes(crc, flash.main, image, d, k - n);
    }
  }

  // A start never changes what the next start gives out, and a completed one leaves it in main.
  lemma BootKeeps(crc: Checksum, flash: Flash, c: Data, k: nat)
    requires flash.Valid() && Recover(crc, flash) == Some(c) && TearProof(crc, c)
    ensures Recover(crc, BootFlash(crc, flash, k)) == Some(c)
    ensures k >= RepairSteps(crc, flash) ==> Decode(crc, BootFlash(crc, flash, k).main) == Some(c)
  {
    hide Decode, Burned, TearProof;
    if Decode(crc, flash.main).None? {
      BurnedDecodes(crc, flash.main, flash.backup, c, k);
      BurnedNothing(flash.main, flash.backup, Sectors(|c|));
    }
  }

  // ---------- Runs ----------

  datatype Event = Save(file: Data, power: nat) | Boot(power: nat)

  // The flash, and whether the last start or save ran to its end.
  datatype Node = Node(flash: Flash, up: bool)

  function Step(crc: Checksum, n: Node, e: Event): (n': Node)
    requires n.flash.Valid()
    ensures n'.flash.Valid()
  {
    match e
    case Save(file, k) =>
      if file == [] then n
      else Node(SaveFlash(crc, n.flash, Cut(file), k), k >= 2 * SlotSteps(Cut(file)))
    case Boot(k) => Node(BootFlash(crc, n.flash, k), k >= RepairSteps(crc, n.flash))
  }

  function Exec(crc: Checksum, n: Node, es: seq<Event>): (n': Node)
    requires n.flash.Valid()
    ensures n'.flash.Valid()
    decreases |es|
  {
    if es == [] then n else Exec(crc, Step(crc, n, es[0]), es[1..])
  }

  // Saves come only from a running system; what they save is told from its torn copies.
  ghost predicate Possible(crc: Checksum, n: Node, es: seq<Event>)
    requires n.flash.Valid()
    decreases |es|
  {
    es != [] ==>
      && (es[0].Save? ==> n.up && TearProof(crc, Cut(es[0].file)))
      && Possible(crc, Step(crc, n, es[0]), es[1..])
  }

  // What a save means for the user: where there is a configuration, nothing until the backup is
  // complete, then the new file; where there is none, the new file as soon as it can be read.
  function After(c: Option<Data>, e: Event): Option<Data> {
    if e.Boot? || e.file == [] then c
    else
      var d := Cut(e.file);
      if c.Some? then if e.power > SlotSteps(d) then Some(d) else c
      else if Readable(d, e.power) then Some(d) else None
  }

  function Latest(c: Option<Data>, es: seq<Event>): Option<Data>
    decreases |es|
  {
    if es == [] then c else Latest(After(c, es[0]), es[1..])
  }

  ghost predicate Stands(crc: Checksum, n: Node, c: Option<Data>) {
    && n.flash.Valid() && Recover(crc, n.flash) == c
    && (c.Some? ==> TearProof(crc, c.value) && (n.up ==> Decode(crc, n.flash.main) == c))
  }

  lemma StepStands(crc: Checksum, n: Node, c: Option<Data>, e: Event)
    requires Stands(crc, n, c) && (e.Save? ==> n.up && TearProof(crc, Cut(e.file)))
    ensures Stands(crc, Step(crc, n, e), After(c, e))
  {
    hide Decode, Burned, TearProof, SaveFlash, BootFlash, Recover, RepairSteps, Readable;
    match e {
      case Save(file, k) =>
        if file != [] && c.Some? {
          SaveRecovers(crc, n.flash, c.value, Cut(file), k);
        } else if file != [] {
          FirstSave(crc, n.flash, Cut(file), k);
        }
      case Boot(k) =>
        if c.Some? {
          BootKeeps(crc, n.flash, c.value, k);
        } else {
          BootLeaves(crc, n.flash, k);
        }
    }
  }

  // With nothing to recover a start changes nothing.
  lemma BootLeaves(crc: Checksum, flash: Flash, k: nat)
    requires flash.Valid() && Recover(crc, flash) == None
    ensures BootFlash(crc, flash, k) == flash
  {
    hide Decode;
  }

  // Over any run, a start gives out exactly what the completed and interrupted saves amount to.
  lemma {:induction false} RunRecovers(crc: Checksum, n: Node, c: Option<Data>, es: seq<Event>)
    requires Stands(crc, n, c) && Possible(crc, n, es)
    ensures Stands(crc, Exec(crc, n, es), Latest(c, es))
    ensures Recover(crc, Exec(crc, n, es).flash) == Latest(c, es)
    decreases |es|
  {
    hide Step, After;
    if es != [] {
      StepStands(crc, n, c, es[0]);
      RunRecovers(crc, Step(crc, n, es[0]), After(c, es[0]), es[1..]);
    }
  }

  // Any flash will do at power-up, blank or damaged too, as long as what it recovers is told from its
  // torn copies.
  lemma RunFromPowerUp(crc: Checksum, flash: Flash, es: seq<Event>)
    requires flash.Valid() && Possible(crc, Node(flash, false), es)
    requires Recover(crc, flash).Some? ==> TearProof(crc, Recover(crc, flash).value)
    ensures Recover(crc, Exec(crc, Node(flash, false), es).flash) == Latest(Recover(crc, flash), es)
  {
    hide Recover, Exec, Possible, TearProof, Latest;
    RunRecovers(crc, Node(flash, false), Recover(crc, flash), es);
  }

  // The last save of a run decides, however often the power fails in the starts after it.
  lemma {:induction false} LastSaveDecides(c: Option<Data>, pre: seq<Event>, save: Event, boots: seq<Event>)
    requires forall e | e in boots :: e.Boot?
    ensures Latest(c, pre + [save] + boots) == After(Latest(c, pre), save)
    decreases |pre|
  {
    hide After;
    var es := pre + [save] + boots;
    if pre == [] {
      assert es[0] == save && es[1..] == boots;
      StartsChangeNothing(After(c, save), boots);
    } else {
      assert es[0] == pre[0] && es[1..] == pre[1..] + [save] + boots;
      LastSaveDecides(After(c, pre[0]), pre[1..], save, boots);
    }
  }

  lemma {:induction false} StartsChangeNothing(c: Option<Data>, boots: seq<Event>)
    requires forall e | e in boots :: e.Boot?
    ensures Latest(c, boots) == c
  {
    if boots != [] {
      assert boots[0] in boots;
      StartsChangeNothing(c, boots[1..]);
    }
  }

  // What a save stores: the whole file, or as much of it as a partition holds.
  lemma CutKeeps(file: Data)
    ensures |file| <= DATA_SIZE ==> Cut(file) == file
    ensures |file| > DATA_SIZE ==> Cut(file) == file[..DATA_SIZE]
  {
  }

  // A save that ran to its end is never lost; one that was cut off leaves the old or the new file,
  // and where there is an old one the end of the backup phase decides.
  lemma SavedIsKept(crc: Checksum, n: Node, c: Option<Data>, pre: seq<Event>, file: Data, k: nat, boots: seq<Event>)
    requires Stands(crc, n, c) && Possible(crc, n, pre + [Save(file, k)] + boots)
    requires file != [] && forall e | e in boots :: e.Boot?
    ensures var r := Recover(crc, Exec(crc, n, pre + [Save(file, k)] + boots).flash);
      var was := Recover(crc, Exec(crc, n, pre).flash);
      var d := if |file| <= DATA_SIZE then file else file[..DATA_SIZE];
      && (k >= 2 * SlotSteps(d) ==> r == Some(d))
      && (was.Some? ==> r == if k > SlotSteps(d) then Some(d) else was)
      && (was.None? ==> r == if Readable(d, k) then Some(d) else None)
  {
    hide Exec, Recover, Possible, Latest, Readable, Cut;
    RunRecovers(crc, n, c, pre + [Save(file, k)] + boots);
    assert pre + [Save(file, k)] + boots == pre + ([Save(file, k)] + boots);
    PrefixPossible(crc, n, pre, [Save(file, k)] + boots);
    RunRecovers(crc, n, c, pre);
    LastSaveDecides(c, pre, Save(file, k), boots);
    CutKeeps(file);
    if k >= 2 * SlotSteps(Cut(file)) {
      CompleteIsReadable(Cut(file), k);
    }
  }

  lemma CompleteIsReadable(d: Data, k: nat)
    requires |d| <= DATA_SIZE && k >= 2 * SlotSteps(d)
    ensures Readable(d, k) && k > SlotSteps(d)
  {
    WholeIsNotTorn(d);
  }

  lemma {:induction false} PrefixPossible(crc: Checksum, n: Node, pre: seq<Event>, more: seq<Event>)
    requires n.flash.Valid() && Possible(crc, n, pre + more)
    ensures Possible(crc, n, pre)
    decreases |pre|
  {
    hide Step, Cut;
    if pre != [] {
      assert (pre + more)[0] == pre[0] && (pre + more)[1..] == pre[1..] + more;
      PrefixPossible(crc, Step(crc, n, pre[0]), pre[1..], more);
    }
  }

  // Why main must be repaired before the next save: otherwise the first erase loses everything.
  lemma SaveWithoutRepairLoses(crc: Checksum, flash: Flash, d: Data)
    requires flash.Valid() && |d| <= DATA_SIZE && Decode(crc, flash.main) == None
    ensures Recover(crc, SaveFlash(crc, flash, d, 1)) == None
  {
    hide Decode;
    var f := SaveFlash(crc, flash, d, 1);
    assert f.backup[7] == 255;
    TornHead(crc, f.backup);
  }
}
