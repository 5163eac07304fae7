# Commodore 64 PLA (906114) decode equations

The C64's PLA is a combinational chip. It reads sixteen input lines:
- the CPU address lines A15-A12;
- the VIC address lines VA13, VA12 and VA14_;
- the bank lines LORAM_, HIRAM_ and CHAREN_ from the CPU port;
- the cartridge lines EXROM_ and GAME_;
- the bus lines CAS_, BA, AEC_ and R_W_.

From these it drives eight outputs:
- the RAM strobe CASRAM_;
- the BASIC, KERNAL and character ROM selects;
- the colour RAM write GR_W_;
- the I/O select;
- the two cartridge ROM selects ROML_ and ROMH_.

The C header `pla.h` packs the inputs into one 16-bit word, `addr`. It tests them one bit at a time and writes each output as one boolean expression over those tests.

The model keeps the raw line levels: `true` means the bit is set. A name ending in `_` is an active-low line, so a select is active when its output is `false`. Polarities are never re-derived.

- `pla.dfy`, module `Pla`:
  - the input word (`bv16`);
  - the bit test `Bit`;
  - the sixteen input accessors (`CAS_` is bit 0, …, `VA12` is bit 15);
  - the eight outputs `F0` (CASRAM_) to `F7` (ROMH_), transcribed clause for clause.
- `pla_table.dfy`, module `PlaTable`: an independent description of the same equations as the chip's AND/OR planes.
  - A product term is a pair of line masks: the lines wired directly and the lines wired through their complement.
  - A table is a list of such terms.
  - `CasramTerms` lists the 29 rows of CASRAM_ in equation order.
  - The other tables list, for each select, the complements of its clauses.
  - The lemmas prove that every output equals its table and that rows 1-23 of CASRAM_ are exactly the select tables, in order.
- `pla_properties.dfy`, module `PlaProperties`:
  - which bit each input reads;
  - a closed form for each select, in terms of the 4 KiB CPU page;
  - CASRAM_ is high while any select is active;
  - the selects are mutually exclusive;
  - the Ultimax-mode behaviour.

Two consequences of the equations, as the lemmas state them:
- A VIC fetch from $1000-$1FFF of bank 0 or 2, outside Ultimax mode, drives CHAROM_ low (`CharomSelect`), so CASRAM_ stays high (`SelectForcesCasramHigh`): the VIC sees the character ROM there, not RAM.
- ROML_ is selected whatever LORAM_ and HIRAM_ are only in Ultimax mode (`UltimaxRoml`); outside it, a ROML_ select needs LORAM_ and HIRAM_ high and EXROM_ low (`RomlSelect`).

## Model

| member | source | states |
|---|---|---|
| PlaProperties.Line | c64_pla_test/pla.h:12-30 | every input line sits at a bit position below 16, and its mask in the tables is `1 << b` for that position `b`, the mask the bit test uses |
| PlaProperties.LinesDistinct | c64_pla_test/pla.h:15-30 | no two inputs read the same bit |
| PlaProperties.InputReadsOneBit | c64_pla_test/pla.h:12-30 | each accessor is high exactly when its own bit of the word is set, and two words give an input different levels exactly when they differ in that bit, so each accessor reads one bit and ignores the other fifteen |
| PlaProperties.CpuPage | c64_pla_test/pla.h:20-23 | the page A15..A12 is below 16 and each of its four binary digits is the level of the matching address line: A15 for pages 8-15, A14 for p mod 8 >= 4, A13 for p mod 4 >= 2, A12 for odd pages |
| PlaProperties.CasForcesHigh | c64_pla_test/pla.h:81-100 | with CAS_ high, CASRAM_ and GR_W_ are both high whatever the other lines are |
| PlaProperties.BasicSelect | c64_pla_test/pla.h:83-84 | BASIC_ is low exactly for a CPU read of $A000-$BFFF with LORAM_, HIRAM_ and GAME_ high |
| PlaProperties.KernalSelect | c64_pla_test/pla.h:86-89 | KERNAL_ is low exactly for a CPU read of $E000-$FFFF with HIRAM_ high outside Ultimax mode |
| PlaProperties.CharomSelect | c64_pla_test/pla.h:91-98 | CHAROM_ is low exactly for a CPU read of $D000-$DFFF with CHAREN_ low (and the LORAM_/HIRAM_/cartridge conditions), or for a VIC fetch from $1000-$1FFF of banks 0 and 2; never in Ultimax mode |
| PlaProperties.ColourRamWrite | c64_pla_test/pla.h:100 | GR_W_ is low exactly for a CPU write to $D000-$DFFF with CAS_ low |
| PlaProperties.IoSelect | c64_pla_test/pla.h:102-123 | I_O_ is low exactly for a CPU write, or a read with BA high, in $D000-$DFFF, with CHAREN_ and LORAM_ or HIRAM_ high, or in Ultimax mode |
| PlaProperties.RomlSelect | c64_pla_test/pla.h:125-127 | ROML_ is low exactly for a CPU access to $8000-$9FFF that is a read with LORAM_, HIRAM_ high and EXROM_ low, or any access in Ultimax mode |
| PlaProperties.RomhSelect | c64_pla_test/pla.h:129-132 | ROMH_ is low exactly in three cases: a 16K-cartridge CPU read of $A000-$BFFF with HIRAM_ high; an Ultimax CPU access to $E000-$FFFF; an Ultimax VIC fetch with VA13 and VA12 high |
| PlaProperties.SelectForcesCasramHigh | c64_pla_test/pla.h:35-132 | whenever BASIC_, KERNAL_, CHAROM_, I_O_, ROML_ or ROMH_ is low, CASRAM_ is high |
| PlaProperties.SelectsExclusive | c64_pla_test/pla.h:83-132 | at most one of the six chip selects is low, for every input word |
| PlaProperties.SelectedChip | c64_pla_test/pla.h:83-132 | the consumer-side corollary of exclusivity: the chip reported for a word is a given chip exactly when that chip's select is low, and no chip exactly when none is |
| PlaProperties.UltimaxUnmappedPages | c64_pla_test/pla.h:76-80 | the five Ultimax rows of CASRAM_ hold exactly in Ultimax mode for pages 1-7, $A, $B and $C |
| PlaProperties.UltimaxUnmappedNoRam | c64_pla_test/pla.h:76-80 | in Ultimax mode CASRAM_ is high for $1000-$7FFF and $A000-$CFFF, whatever AEC_ is |
| PlaProperties.UltimaxRoml | c64_pla_test/pla.h:127 | in Ultimax mode with A15 high, A14, A13 and AEC_ low, ROML_ is low whatever LORAM_ and HIRAM_ are |
| PlaTable.SumAppend | c64_pla_test/pla.h:35-81 | the OR of a concatenation of row lists is the OR of the two lists |
| PlaTable.BasicTable | c64_pla_test/pla.h:83-84 | BASIC_ is high exactly when its single row does not hold |
| PlaTable.KernalTable | c64_pla_test/pla.h:86-89 | KERNAL_ is high exactly when none of its two rows holds |
| PlaTable.CharomTable | c64_pla_test/pla.h:91-98 | CHAROM_ is high exactly when none of its five rows holds |
| PlaTable.ColourWriteTable | c64_pla_test/pla.h:100 | GR_W_ is high exactly when its single row does not hold |
| PlaTable.IoTable | c64_pla_test/pla.h:102-123 | I_O_ is high exactly when none of its ten rows holds |
| PlaTable.RomlTable | c64_pla_test/pla.h:125-127 | ROML_ is high exactly when none of its two rows holds |
| PlaTable.RomhTable | c64_pla_test/pla.h:129-132 | ROMH_ is high exactly when none of its three rows holds |
| PlaTable.UnmappedTable | c64_pla_test/pla.h:76-80 | the Ultimax rows hold exactly when one of the five unmapped product terms of CASRAM_ does |
| PlaTable.CasramTermsAreSelectTerms | c64_pla_test/pla.h:35-81 | the 29 rows of CASRAM_ are, in order, the rows of BASIC_, KERNAL_, CHAROM_, I_O_, ROML_ and ROMH_, then the five Ultimax rows, then CAS_ |
| PlaTable.CasramTable | c64_pla_test/pla.h:35-81 | CASRAM_ is high exactly when one of its 29 rows holds, that is, exactly when a chip select is low, an Ultimax unmapped row holds or CAS_ is high; nothing else raises it |

## Left out

- The mutable global `addr` of `pla.h` is not modelled as state. It is a parameter of every accessor and output.
- Preprocessor mechanics are not modelled: the include guard and the textual macro substitution.
- The `!!` normalisation of the bit test to 0 or 1 is not modelled: `Bit` returns a boolean directly.
- The C `int` arithmetic of `1 << b` is not modelled. For the positions 0-15 used here it equals the 16-bit mask.
- The input word is never read as a number; only its bits are used. `CpuPage` is assembled from A15..A12, not taken from a numeric address.
- Propagation delay, output timing and the analogue behaviour of the chip are not modelled.
- The program that sets `addr` and reads F0..F7 is not in `pla.h` and is not modelled; a CPU, VIC or memory model would be outside these equations.
