/** What the PLA equations guarantee, stated over every 16-bit input word.
 *
 *  Levels stay raw: a select output is active when it is `false`.
 */
module PlaProperties {
  import opened Pla
  import PlaTable

  // ------------------------------------------------------------ the inputs

  /** The sixteen input lines, in the order of their bit positions. */
  datatype Input =
    | InCAS | InLORAM | InHIRAM | InCHAREN | InVA14 | InA15 | InA14 | InA13
    | InA12 | InBA | InAEC | InR_W | InEXROM | InGAME | InVA13 | InVA12

  /** Bit position of an input line within the input word: the position of
   *  the single bit its mask in the tables carries. */
  function Line(i: Input): (b: nat)
    ensures b < 16
    ensures LineMask(i) == (1 as Word) << (b as bv4)
  {
    match i
    case InCAS => 0
    case InLORAM => 1
    case InHIRAM => 2
    case InCHAREN => 3
    case InVA14 => 4
    case InA15 => 5
    case InA14 => 6
    case InA13 => 7
    case InA12 => 8
    case InBA => 9
    case InAEC => 10
    case InR_W => 11
    case InEXROM => 12
    case InGAME => 13
    case InVA13 => 14
    case InVA12 => 15
  }

  /** The mask of an input's line, as the product-term tables use it. */
  function LineMask(i: Input): Word {
    match i
    case InCAS => PlaTable.CAS
    case InLORAM => PlaTable.LORAM
    case InHIRAM => PlaTable.HIRAM
    case InCHAREN => PlaTable.CHAREN
    case InVA14 => PlaTable.VA14
    case InA15 => PlaTable.A15
    case InA14 => PlaTable.A14
    case InA13 => PlaTable.A13
    case InA12 => PlaTable.A12
    case InBA => PlaTable.BA
    case InAEC => PlaTable.AEC
    case InR_W => PlaTable.R_W
    case InEXROM => PlaTable.EXROM
    case InGAME => PlaTable.GAME
    case InVA13 => PlaTable.VA13
    case InVA12 => PlaTable.VA12
  }

  /** Level of an input line, read through its named accessor. */
  predicate Level(v: Word, i: Input) {
    match i
    case InCAS => CAS_(v)
    case InLORAM => LORAM_(v)
    case InHIRAM => HIRAM_(v)
    case InCHAREN => CHAREN_(v)
    case InVA14 => VA14_(v)
    case InA15 => A15(v)
    case InA14 => A14(v)
    case InA13 => A13(v)
    case InA12 => A12(v)
    case InBA => BA(v)
    case InAEC => AEC_(v)
    case InR_W => R_W_(v)
    case InEXROM => EXROM_(v)
    case InGAME => GAME_(v)
    case InVA13 => VA13(v)
    case InVA12 => VA12(v)
  }

  /** Each accessor is high exactly when its own bit is set, and two words
   *  give an input different levels exactly when they differ in that bit:
   *  each accessor reads one bit and no other. */
  lemma InputReadsOneBit(v: Word, w: Word, i: Input)
    ensures Level(v, i) <==> v & LineMask(i) != 0
    ensures Level(v, i) != Level(w, i) <==> (v ^ w) & LineMask(i) != 0
  {
    match i
    case InCAS =>
    case InLORAM =>
    case InHIRAM =>
    case InCHAREN =>
    case InVA14 =>
    case InA15 =>
    case InA14 =>
    case InA13 =>
    case InA12 =>
    case InBA =>
    case InAEC =>
    case InR_W =>
    case InEXROM =>
    case InGAME =>
    case InVA13 =>
    case InVA12 =>
  }

  /** No two inputs share a bit. */
  lemma LinesDistinct(i: Input, j: Input)
    ensures Line(i) == Line(j) <==> i == j
  {
  }

  // ------------------------------------------------------ derived notions

  /** The 4 KiB page ($0000-$0FFF is page 0, $F000-$FFFF page 15) of the CPU
   *  address whose top four lines A15..A12 the word carries. */
  function CpuPage(v: Word): (p: nat)
    ensures p < 16
    ensures A15(v) <==> p >= 8
    ensures A14(v) <==> p % 8 >= 4
    ensures A13(v) <==> p % 4 >= 2
    ensures A12(v) <==> p % 2 == 1
  {
    (if A15(v) then 8 else 0) + (if A14(v) then 4 else 0) +
    (if A13(v) then 2 else 0) + (if A12(v) then 1 else 0)
  }

  /** Ultimax mode: a cartridge pulls GAME_ low while EXROM_ stays high. */
  predicate Ultimax(v: Word) {
    EXROM_(v) && !GAME_(v)
  }

  /** Some ROM, character ROM or I/O select is active (low). */
  predicate AnySelect(v: Word) {
    !F1(v) || !F2(v) || !F3(v) || !F5(v) || !F6(v) || !F7(v)
  }

  /** How many of the six ROM, character ROM and I/O selects are active. */
  function ActiveSelects(v: Word): nat {
    (if F1(v) then 0 else 1) + (if F2(v) then 0 else 1) +
    (if F3(v) then 0 else 1) + (if F5(v) then 0 else 1) +
    (if F6(v) then 0 else 1) + (if F7(v) then 0 else 1)
  }

  /** The chips behind the six select outputs. */
  datatype Chip = BasicRom | KernalRom | CharRom | IoArea | CartLow | CartHigh

  datatype Option<T> = None | Some(value: T)

  /** The chip the PLA selects for the word, if any, as a consumer of the
   *  select outputs would decode it. This is the consumer-side corollary of
   *  `SelectsExclusive`: because the selects exclude each other, each chip is
   *  reported exactly when its own select is low, whatever order the tests
   *  are made in. */
  function SelectedChip(v: Word): (c: Option<Chip>)
    ensures c == Some(BasicRom) <==> !F1(v)
    ensures c == Some(KernalRom) <==> !F2(v)
    ensures c == Some(CharRom) <==> !F3(v)
    ensures c == Some(IoArea) <==> !F5(v)
    ensures c == Some(CartLow) <==> !F6(v)
    ensures c == Some(CartHigh) <==> !F7(v)
    ensures c == None <==> !AnySelect(v)
  {
    if !F7(v) then Some(CartHigh)
    else if !F6(v) then Some(CartLow)
    else if !F5(v) then Some(IoArea)
    else if !F3(v) then Some(CharRom)
    else if !F2(v) then Some(KernalRom)
    else if !F1(v) then Some(BasicRom)
    else None
  }

  // ---------------------------------------------------------- the lemmas

  /** Outside a RAM cycle (CAS_ high) neither the RAM strobe nor the colour
   *  RAM write is active, whatever the other fifteen lines are. */
  lemma CasForcesHigh(v: Word)
    requires CAS_(v)
    ensures F0(v) && F4(v)
  {
  }

  /** BASIC ROM: a CPU read of $A000-$BFFF with LORAM_, HIRAM_ and GAME_ high. */
  lemma BasicSelect(v: Word)
    ensures !F1(v) <==>
      LORAM_(v) && HIRAM_(v) && GAME_(v) && !AEC_(v) && R_W_(v) &&
      CpuPage(v) in {0xA, 0xB}
  {
  }

  /** KERNAL ROM: a CPU read of $E000-$FFFF with HIRAM_ high, outside Ultimax mode. */
  lemma KernalSelect(v: Word)
    ensures !F2(v) <==>
      HIRAM_(v) && !AEC_(v) && R_W_(v) && CpuPage(v) in {0xE, 0xF} && !Ultimax(v)
  {
  }

  /** Character ROM: a CPU read of $D000-$DFFF with CHAREN_ low and LORAM_
   *  or HIRAM_ high (only HIRAM_ counts in the 16K cartridge mode), or a VIC
   *  fetch from $1000-$1FFF of VIC bank 0 or 2; never in Ultimax mode. */
  lemma CharomSelect(v: Word)
    ensures !F3(v) <==>
      (!CHAREN_(v) && !AEC_(v) && R_W_(v) && CpuPage(v) == 0xD &&
       (((HIRAM_(v) || LORAM_(v)) && GAME_(v)) || (HIRAM_(v) && !EXROM_(v) && !GAME_(v)))) ||
      (VA14_(v) && AEC_(v) && !VA13(v) && VA12(v) && !Ultimax(v))
  {
  }

  /** Colour RAM write: a CPU write to $D000-$DFFF during a RAM cycle. */
  lemma ColourRamWrite(v: Word)
    ensures !F4(v) <==> !CAS_(v) && !AEC_(v) && !R_W_(v) && CpuPage(v) == 0xD
  {
  }

  /** I/O: a CPU access to $D000-$DFFF (a write, or a read with BA high) with
   *  CHAREN_ and one of LORAM_/HIRAM_ high, or any such access in Ultimax mode. */
  lemma IoSelect(v: Word)
    ensures !F5(v) <==>
      !AEC_(v) && CpuPage(v) == 0xD && (BA(v) || !R_W_(v)) &&
      (((HIRAM_(v) || LORAM_(v)) && CHAREN_(v) && !Ultimax(v)) || Ultimax(v))
  {
  }

  /** Cartridge ROML: a CPU access to $8000-$9FFF that is either a read with
   *  LORAM_ and HIRAM_ high and EXROM_ low, or any access in Ultimax mode. */
  lemma RomlSelect(v: Word)
    ensures !F6(v) <==>
      !AEC_(v) && CpuPage(v) in {8, 9} &&
      ((LORAM_(v) && HIRAM_(v) && R_W_(v) && !EXROM_(v)) || Ultimax(v))
  {
  }

  /** Cartridge ROMH: a CPU read of $A000-$BFFF with HIRAM_ high in the
   *  16K cartridge mode, a CPU access to $E000-$FFFF in Ultimax mode, or a VIC
   *  fetch with VA13 and VA12 high in Ultimax mode. */
  lemma RomhSelect(v: Word)
    ensures !F7(v) <==>
      (!AEC_(v) && HIRAM_(v) && R_W_(v) && !EXROM_(v) && !GAME_(v) &&
       CpuPage(v) in {0xA, 0xB}) ||
      (!AEC_(v) && Ultimax(v) && CpuPage(v) in {0xE, 0xF}) ||
      (AEC_(v) && Ultimax(v) && VA13(v) && VA12(v))
  {
  }

  /** While a ROM, character ROM or I/O select is active, RAM is not strobed. */
  lemma SelectForcesCasramHigh(v: Word)
    requires AnySelect(v)
    ensures F0(v)
  {
  }

  /** No two of the six chip selects are ever active together. */
  lemma SelectsExclusive(v: Word)
    ensures ActiveSelects(v) <= 1
  {
  }

  /** The five Ultimax rows of CASRAM_ cover exactly $1000-$7FFF,
   *  $A000-$BFFF and $C000-$CFFF, for CPU and VIC cycles alike. */
  lemma UltimaxUnmappedPages(v: Word)
    ensures PlaTable.SumHolds(PlaTable.UnmappedTerms, v) <==>
      Ultimax(v) && (1 <= CpuPage(v) <= 7 || CpuPage(v) in {0xA, 0xB, 0xC})
  {
    PlaTable.UnmappedTable(v);
  }

  /** In Ultimax mode RAM is not strobed for $1000-$7FFF and $A000-$CFFF,
   *  whether the CPU or the VIC has the bus. */
  lemma UltimaxUnmappedNoRam(v: Word)
    requires Ultimax(v)
    requires 1 <= CpuPage(v) <= 7 || CpuPage(v) in {0xA, 0xB, 0xC}
    ensures F0(v)
  {
  }

  /** In Ultimax mode a CPU access to $8000-$9FFF selects ROML whatever
   *  LORAM_ and HIRAM_ are. */
  lemma UltimaxRoml(v: Word)
    requires Ultimax(v)
    requires A15(v) && !A14(v) && !A13(v) && !AEC_(v)
    ensures !F6(v)
  {
  }
}
