/** Combinational decode equations of the Commodore 64 PLA (906114).
 *
 *  The sixteen input lines are packed into one 16-bit word; every output is a
 *  single boolean expression over bit tests of that word. Signal values are the
 *  raw line levels: `true` means the bit is set. A trailing `_` marks an
 *  active-low line, so an output select is active when its value is `false`.
 */
module Pla {

  /** The input word: bit b holds the level of input line b. */
  type Word = bv16

  /** Level of input line `b` of the word `v`. */
  predicate Bit(v: Word, b: nat)
    requires b < 16
  {
    v & ((1 as Word) << (b as bv4)) != 0
  }

  // ---------------------------------------------------------------- inputs

  predicate CAS_(v: Word)    { Bit(v, 0) }
  predicate LORAM_(v: Word)  { Bit(v, 1) }
  predicate HIRAM_(v: Word)  { Bit(v, 2) }
  predicate CHAREN_(v: Word) { Bit(v, 3) }
  predicate VA14_(v: Word)   { Bit(v, 4) }
  predicate A15(v: Word)     { Bit(v, 5) }
  predicate A14(v: Word)     { Bit(v, 6) }
  predicate A13(v: Word)     { Bit(v, 7) }
  predicate A12(v: Word)     { Bit(v, 8) }
  predicate BA(v: Word)      { Bit(v, 9) }
  predicate AEC_(v: Word)    { Bit(v, 10) }
  predicate R_W_(v: Word)    { Bit(v, 11) }
  predicate EXROM_(v: Word)  { Bit(v, 12) }
  predicate GAME_(v: Word)   { Bit(v, 13) }
  predicate VA13(v: Word)    { Bit(v, 14) }
  predicate VA12(v: Word)    { Bit(v, 15) }

  // --------------------------------------------------------------- outputs

  /** CASRAM_: low when the RAM is to be strobed. */
  predicate F0(v: Word) {
    (LORAM_(v) && HIRAM_(v) && A15(v) && !A14(v) && A13(v) &&
     !AEC_(v) && R_W_(v) && GAME_(v)) ||
    (HIRAM_(v) && A15(v) && A14(v) && A13(v) &&
     !AEC_(v) && R_W_(v) && GAME_(v)) ||
    (HIRAM_(v) && A15(v) && A14(v) && A13(v) &&
     !AEC_(v) && R_W_(v) && !EXROM_(v) && !GAME_(v)) ||
    (HIRAM_(v) && !CHAREN_(v) && A15(v) && A14(v) && !A13(v) &&
     A12(v) && !AEC_(v) && R_W_(v) && GAME_(v)) ||
    (LORAM_(v) && !CHAREN_(v) && A15(v) && A14(v) && !A13(v) &&
     A12(v) && !AEC_(v) && R_W_(v) && GAME_(v)) ||
    (HIRAM_(v) && !CHAREN_(v) && A15(v) && A14(v) && !A13(v) &&
     A12(v) && !AEC_(v) && R_W_(v) && !EXROM_(v) && !GAME_(v)) ||
    (VA14_(v) && AEC_(v) && GAME_(v) && !VA13(v) && VA12(v)) ||
    (VA14_(v) && AEC_(v) && !EXROM_(v) && !GAME_(v) && !VA13(v) && VA12(v)) ||
    (HIRAM_(v) && CHAREN_(v) && A15(v) && A14(v) && !A13(v) &&
     A12(v) && BA(v) && !AEC_(v) && R_W_(v) && GAME_(v)) ||
    (HIRAM_(v) && CHAREN_(v) && A15(v) && A14(v) && !A13(v) &&
     A12(v) && !AEC_(v) && !R_W_(v) && GAME_(v)) ||
    (LORAM_(v) && CHAREN_(v) && A15(v) && A14(v) && !A13(v) &&
     A12(v) && BA(v) && !AEC_(v) && R_W_(v) && GAME_(v)) ||
    (LORAM_(v) && CHAREN_(v) && A15(v) && A14(v) && !A13(v) &&
     A12(v) && !AEC_(v) && !R_W_(v) && GAME_(v)) ||
    (HIRAM_(v) && CHAREN_(v) && A15(v) && A14(v) && !A13(v) &&
     A12(v) && BA(v) && !AEC_(v) && R_W_(v) && !EXROM_(v) && !GAME_(v)) ||
    (HIRAM_(v) && CHAREN_(v) && A15(v) && A14(v) && !A13(v) &&
     A12(v) && !AEC_(v) && !R_W_(v) && !EXROM_(v) && !GAME_(v)) ||
    (LORAM_(v) && CHAREN_(v) && A15(v) && A14(v) && !A13(v) &&
     A12(v) && BA(v) && !AEC_(v) && R_W_(v) && !EXROM_(v) && !GAME_(v)) ||
    (LORAM_(v) && CHAREN_(v) && A15(v) && A14(v) && !A13(v) &&
     A12(v) && !AEC_(v) && !R_W_(v) && !EXROM_(v) && !GAME_(v)) ||
    (A15(v) && A14(v) && !A13(v) && A12(v) && BA(v) &&
     !AEC_(v) && R_W_(v) && EXROM_(v) && !GAME_(v)) ||
    (A15(v) && A14(v) && !A13(v) && A12(v) &&
     !AEC_(v) && !R_W_(v) && EXROM_(v) && !GAME_(v)) ||
    (LORAM_(v) && HIRAM_(v) && A15(v) && !A14(v) && !A13(v) &&
     !AEC_(v) && R_W_(v) && !EXROM_(v)) ||
    (A15(v) && !A14(v) && !A13(v) && !AEC_(v) && EXROM_(v) && !GAME_(v)) ||
    (HIRAM_(v) && A15(v) && !A14(v) && A13(v) && !AEC_(v) &&
     R_W_(v) && !EXROM_(v) && !GAME_(v)) ||
    (A15(v) && A14(v) && A13(v) && !AEC_(v) && EXROM_(v) && !GAME_(v)) ||
    (AEC_(v) && EXROM_(v) && !GAME_(v) && VA13(v) && VA12(v)) ||
    (!A15(v) && !A14(v) && A12(v) && EXROM_(v) && !GAME_(v)) ||
    (!A15(v) && !A14(v) && A13(v) && EXROM_(v) && !GAME_(v)) ||
    (!A15(v) && A14(v) && EXROM_(v) && !GAME_(v)) ||
    (A15(v) && !A14(v) && A13(v) && EXROM_(v) && !GAME_(v)) ||
    (A15(v) && A14(v) && !A13(v) && !A12(v) && EXROM_(v) && !GAME_(v)) ||
    CAS_(v)
  }

  /** BASIC_: low when the BASIC ROM is selected. */
  predicate F1(v: Word) {
    !LORAM_(v) || !HIRAM_(v) || !A15(v) || A14(v) || !A13(v) ||
    AEC_(v) || !R_W_(v) || !GAME_(v)
  }

  /** KERNAL_: low when the KERNAL ROM is selected. */
  predicate F2(v: Word) {
    (!HIRAM_(v) || !A15(v) || !A14(v) || !A13(v) || AEC_(v) ||
     !R_W_(v) || !GAME_(v)) &&
    (!HIRAM_(v) || !A15(v) || !A14(v) || !A13(v) || AEC_(v) ||
     !R_W_(v) || EXROM_(v) || GAME_(v))
  }

  /** CHAROM_: low when the character ROM is selected, for the CPU or the VIC. */
  predicate F3(v: Word) {
    (!HIRAM_(v) || CHAREN_(v) || !A15(v) || !A14(v) || A13(v) ||
     !A12(v) || AEC_(v) || !R_W_(v) || !GAME_(v)) &&
    (!LORAM_(v) || CHAREN_(v) || !A15(v) || !A14(v) || A13(v) ||
     !A12(v) || AEC_(v) || !R_W_(v) || !GAME_(v)) &&
    (!HIRAM_(v) || CHAREN_(v) || !A15(v) || !A14(v) || A13(v) ||
     !A12(v) || AEC_(v) || !R_W_(v) || EXROM_(v) || GAME_(v)) &&
    (!VA14_(v) || !AEC_(v) || !GAME_(v) || VA13(v) || !VA12(v)) &&
    (!VA14_(v) || !AEC_(v) || EXROM_(v) || GAME_(v) || VA13(v) || !VA12(v))
  }

  /** GR_W_: low when the colour RAM is to be written. */
  predicate F4(v: Word) {
    CAS_(v) || !A15(v) || !A14(v) || A13(v) || !A12(v) || AEC_(v) || R_W_(v)
  }

  /** I_O_: low when the I/O area is selected. */
  predicate F5(v: Word) {
    (!HIRAM_(v) || !CHAREN_(v) || !A15(v) || !A14(v) || A13(v) ||
     !A12(v) || !BA(v) || AEC_(v) || !R_W_(v) || !GAME_(v)) &&
    (!HIRAM_(v) || !CHAREN_(v) || !A15(v) || !A14(v) || A13(v) ||
     !A12(v) || AEC_(v) || R_W_(v) || !GAME_(v)) &&
    (!LORAM_(v) || !CHAREN_(v) || !A15(v) || !A14(v) || A13(v) ||
     !A12(v) || !BA(v) || AEC_(v) || !R_W_(v) || !GAME_(v)) &&
    (!LORAM_(v) || !CHAREN_(v) || !A15(v) || !A14(v) || A13(v) ||
     !A12(v) || AEC_(v) || R_W_(v) || !GAME_(v)) &&
    (!HIRAM_(v) || !CHAREN_(v) || !A15(v) || !A14(v) || A13(v) ||
     !A12(v) || !BA(v) || AEC_(v) || !R_W_(v) || EXROM_(v) ||
     GAME_(v)) &&
    (!HIRAM_(v) || !CHAREN_(v) || !A15(v) || !A14(v) || A13(v) ||
     !A12(v) || AEC_(v) || R_W_(v) || EXROM_(v) || GAME_(v)) &&
    (!LORAM_(v) || !CHAREN_(v) || !A15(v) || !A14(v) || A13(v) ||
     !A12(v) || !BA(v) || AEC_(v) || !R_W_(v) || EXROM_(v) ||
     GAME_(v)) &&
    (!LORAM_(v) || !CHAREN_(v) || !A15(v) || !A14(v) || A13(v) ||
     !A12(v) || AEC_(v) || R_W_(v) || EXROM_(v) || GAME_(v)) &&
    (!A15(v) || !A14(v) || A13(v) || !A12(v) || !BA(v) ||
     AEC_(v) || !R_W_(v) || !EXROM_(v) || GAME_(v)) &&
    (!A15(v) || !A14(v) || A13(v) || !A12(v) || AEC_(v) ||
     R_W_(v) || !EXROM_(v) || GAME_(v))
  }

  /** ROML_: low when the cartridge's low ROM bank is selected. */
  predicate F6(v: Word) {
    (!LORAM_(v) || !HIRAM_(v) || !A15(v) || A14(v) || A13(v) ||
     AEC_(v) || !R_W_(v) || EXROM_(v)) &&
    (!A15(v) || A14(v) || A13(v) || AEC_(v) || !EXROM_(v) || GAME_(v))
  }

  /** ROMH_: low when the cartridge's high ROM bank is selected. */
  predicate F7(v: Word) {
    (!HIRAM_(v) || !A15(v) || A14(v) || !A13(v) ||
     AEC_(v) || !R_W_(v) || EXROM_(v) || GAME_(v)) &&
    (!A15(v) || !A14(v) || !A13(v) || AEC_(v) || !EXROM_(v) || GAME_(v)) &&
    (!AEC_(v) || !EXROM_(v) || GAME_(v) || !VA13(v) || !VA12(v))
  }
}
