/** The PLA's AND plane as data: every output equation written as a list of
 *  product terms, each term a list of input lines and the level it demands.
 *
 *  CASRAM_ is the OR of its terms. Every other output is a product of sums;
 *  by De Morgan each of its clauses is the complement of one product term,
 *  so the output is low exactly when one of those terms holds.
 */
module PlaTable {
  import Pla

  type Word = Pla.Word

  // The input lines as masks of the input word: bit b set for the line at
  // position b, in the order of the accessors of `Pla`.
  const CAS: Word := 0x0001
  const LORAM: Word := 0x0002
  const HIRAM: Word := 0x0004
  const CHAREN: Word := 0x0008
  const VA14: Word := 0x0010
  const A15: Word := 0x0020
  const A14: Word := 0x0040
  const A13: Word := 0x0080
  const A12: Word := 0x0100
  const BA: Word := 0x0200
  const AEC: Word := 0x0400
  const R_W: Word := 0x0800
  const EXROM: Word := 0x1000
  const GAME: Word := 0x2000
  const VA13: Word := 0x4000
  const VA12: Word := 0x8000

  /** One row of the AND plane: the lines wired to it directly (`high`) and
   *  the lines wired to it through their complement (`low`). */
  datatype Term = Term(high: Word, low: Word)

  /** A row is active when every line wired directly is high and every line
   *  wired through its complement is low: on the wired lines the word agrees
   *  with `high`. A row wired to both a line and its complement never holds. */
  predicate TermHolds(t: Term, v: Word) {
    t.high & t.low == 0 && (v ^ t.high) & (t.high | t.low) == 0
  }

  /** The OR plane: a sum of product terms holds when some term does. */
  predicate SumHolds(ts: seq<Term>, v: Word) {
    if ts == [] then false else TermHolds(ts[0], v) || SumHolds(ts[1..], v)
  }

  // ------------------------------------------------------------ the tables

  /** Complement of the single clause of BASIC_. */
  const BasicTerms: seq<Term> := [
    Term(LORAM | HIRAM | A15 | A13 | R_W | GAME, A14 | AEC)
  ]

  /** Complements of the two clauses of KERNAL_. */
  const KernalTerms: seq<Term> := [
    Term(HIRAM | A15 | A14 | A13 | R_W | GAME, AEC),
    Term(HIRAM | A15 | A14 | A13 | R_W, AEC | EXROM | GAME)
  ]

  /** Complements of the five clauses of CHAROM_: three CPU reads, two VIC fetches. */
  const CharomTerms: seq<Term> := [
    Term(HIRAM | A15 | A14 | A12 | R_W | GAME, CHAREN | A13 | AEC),
    Term(LORAM | A15 | A14 | A12 | R_W | GAME, CHAREN | A13 | AEC),
    Term(HIRAM | A15 | A14 | A12 | R_W, CHAREN | A13 | AEC | EXROM | GAME),
    Term(VA14 | AEC | GAME | VA12, VA13),
    Term(VA14 | AEC | VA12, EXROM | GAME | VA13)
  ]

  /** Complement of the single clause of GR_W_. */
  const ColourWriteTerms: seq<Term> := [
    Term(A15 | A14 | A12, CAS | A13 | AEC | R_W)
  ]

  /** Complements of the ten clauses of I_O_. */
  const IoTerms: seq<Term> := [
    Term(HIRAM | CHAREN | A15 | A14 | A12 | BA | R_W | GAME, A13 | AEC),
    Term(HIRAM | CHAREN | A15 | A14 | A12 | GAME, A13 | AEC | R_W),
    Term(LORAM | CHAREN | A15 | A14 | A12 | BA | R_W | GAME, A13 | AEC),
    Term(LORAM | CHAREN | A15 | A14 | A12 | GAME, A13 | AEC | R_W),
    Term(HIRAM | CHAREN | A15 | A14 | A12 | BA | R_W, A13 | AEC | EXROM | GAME),
    Term(HIRAM | CHAREN | A15 | A14 | A12, A13 | AEC | R_W | EXROM | GAME),
    Term(LORAM | CHAREN | A15 | A14 | A12 | BA | R_W, A13 | AEC | EXROM | GAME),
    Term(LORAM | CHAREN | A15 | A14 | A12, A13 | AEC | R_W | EXROM | GAME),
    Term(A15 | A14 | A12 | BA | R_W | EXROM, A13 | AEC | GAME),
    Term(A15 | A14 | A12 | EXROM, A13 | AEC | R_W | GAME)
  ]

  /** Complements of the two clauses of ROML_. */
  const RomlTerms: seq<Term> := [
    Term(LORAM | HIRAM | A15 | R_W, A14 | A13 | AEC | EXROM),
    Term(A15 | EXROM, A14 | A13 | AEC | GAME)
  ]

  /** Complements of the three clauses of ROMH_. */
  const RomhTerms: seq<Term> := [
    Term(HIRAM | A15 | A13 | R_W, A14 | AEC | EXROM | GAME),
    Term(A15 | A14 | A13 | EXROM, AEC | GAME),
    Term(AEC | EXROM | VA13 | VA12, GAME)
  ]

  /** The Ultimax address ranges that no device answers. */
  const UnmappedTerms: seq<Term> := [
    Term(A12 | EXROM, A15 | A14 | GAME),
    Term(A13 | EXROM, A15 | A14 | GAME),
    Term(A14 | EXROM, A15 | GAME),
    Term(A15 | A13 | EXROM, A14 | GAME),
    Term(A15 | A14 | EXROM, A13 | A12 | GAME)
  ]

  /** The 29 product terms of CASRAM_, in the order of the equation. */
  const CasramTerms: seq<Term> := [
    Term(LORAM | HIRAM | A15 | A13 | R_W | GAME, A14 | AEC),
    Term(HIRAM | A15 | A14 | A13 | R_W | GAME, AEC),
    Term(HIRAM | A15 | A14 | A13 | R_W, AEC | EXROM | GAME),
    Term(HIRAM | A15 | A14 | A12 | R_W | GAME, CHAREN | A13 | AEC),
    Term(LORAM | A15 | A14 | A12 | R_W | GAME, CHAREN | A13 | AEC),
    Term(HIRAM | A15 | A14 | A12 | R_W, CHAREN | A13 | AEC | EXROM | GAME),
    Term(VA14 | AEC | GAME | VA12, VA13),
    Term(VA14 | AEC | VA12, EXROM | GAME | VA13),
    Term(HIRAM | CHAREN | A15 | A14 | A12 | BA | R_W | GAME, A13 | AEC),
    Term(HIRAM | CHAREN | A15 | A14 | A12 | GAME, A13 | AEC | R_W),
    Term(LORAM | CHAREN | A15 | A14 | A12 | BA | R_W | GAME, A13 | AEC),
    Term(LORAM | CHAREN | A15 | A14 | A12 | GAME, A13 | AEC | R_W),
    Term(HIRAM | CHAREN | A15 | A14 | A12 | BA | R_W, A13 | AEC | EXROM | GAME),
    Term(HIRAM | CHAREN | A15 | A14 | A12, A13 | AEC | R_W | EXROM | GAME),
    Term(LORAM | CHAREN | A15 | A14 | A12 | BA | R_W, A13 | AEC | EXROM | GAME),
    Term(LORAM | CHAREN | A15 | A14 | A12, A13 | AEC | R_W | EXROM | GAME),
    Term(A15 | A14 | A12 | BA | R_W | EXROM, A13 | AEC | GAME),
    Term(A15 | A14 | A12 | EXROM, A13 | AEC | R_W | GAME),
    Term(LORAM | HIRAM | A15 | R_W, A14 | A13 | AEC | EXROM),
    Term(A15 | EXROM, A14 | A13 | AEC | GAME),
    Term(HIRAM | A15 | A13 | R_W, A14 | AEC | EXROM | GAME),
    Term(A15 | A14 | A13 | EXROM, AEC | GAME),
    Term(AEC | EXROM | VA13 | VA12, GAME),
    Term(A12 | EXROM, A15 | A14 | GAME),
    Term(A13 | EXROM, A15 | A14 | GAME),
    Term(A14 | EXROM, A15 | GAME),
    Term(A15 | A13 | EXROM, A14 | GAME),
    Term(A15 | A14 | EXROM, A13 | A12 | GAME),
    Term(CAS, 0)
  ]

  // ------------------------------------------------- unrolling the OR plane

  /** A sum over a concatenation is the OR of the two sums. */
  lemma {:induction false} SumAppend(a: seq<Term>, b: seq<Term>, v: Word)
    ensures SumHolds(a + b, v) <==> SumHolds(a, v) || SumHolds(b, v)
  {
    if a == [] {
      assert a + b == b;
    } else {
      assert (a + b)[1..] == a[1..] + b;
      SumAppend(a[1..], b, v);
    }
  }

  // A sum over a short table, written out term by term.

  lemma Sum2(s: seq<Term>, v: Word)
    requires |s| == 2
    ensures SumHolds(s, v) <==> TermHolds(s[0], v) || TermHolds(s[1], v)
  {
    assert SumHolds(s[1..], v) <==> TermHolds(s[1], v) || SumHolds(s[2..], v);
  }

  lemma Sum3(s: seq<Term>, v: Word)
    requires |s| == 3
    ensures SumHolds(s, v) <==>
      TermHolds(s[0], v) || TermHolds(s[1], v) || TermHolds(s[2], v)
  {
    assert SumHolds(s[1..], v) <==> TermHolds(s[1], v) || SumHolds(s[2..], v);
    assert SumHolds(s[2..], v) <==> TermHolds(s[2], v) || SumHolds(s[3..], v);
  }

  lemma Sum5(s: seq<Term>, v: Word)
    requires |s| == 5
    ensures SumHolds(s, v) <==>
      TermHolds(s[0], v) || TermHolds(s[1], v) || TermHolds(s[2], v) ||
      TermHolds(s[3], v) || TermHolds(s[4], v)
  {
    assert SumHolds(s[1..], v) <==> TermHolds(s[1], v) || SumHolds(s[2..], v);
    assert SumHolds(s[2..], v) <==> TermHolds(s[2], v) || SumHolds(s[3..], v);
    assert SumHolds(s[3..], v) <==> TermHolds(s[3], v) || SumHolds(s[4..], v);
    assert SumHolds(s[4..], v) <==> TermHolds(s[4], v) || SumHolds(s[5..], v);
  }

  lemma Sum10(s: seq<Term>, v: Word)
    requires |s| == 10
    ensures SumHolds(s, v) <==>
      TermHolds(s[0], v) || TermHolds(s[1], v) || TermHolds(s[2], v) ||
      TermHolds(s[3], v) || TermHolds(s[4], v) || TermHolds(s[5], v) ||
      TermHolds(s[6], v) || TermHolds(s[7], v) || TermHolds(s[8], v) ||
      TermHolds(s[9], v)
  {
    assert SumHolds(s[1..], v) <==> TermHolds(s[1], v) || SumHolds(s[2..], v);
    assert SumHolds(s[2..], v) <==> TermHolds(s[2], v) || SumHolds(s[3..], v);
    assert SumHolds(s[3..], v) <==> TermHolds(s[3], v) || SumHolds(s[4..], v);
    assert SumHolds(s[4..], v) <==> TermHolds(s[4], v) || SumHolds(s[5..], v);
    assert SumHolds(s[5..], v) <==> TermHolds(s[5], v) || SumHolds(s[6..], v);
    assert SumHolds(s[6..], v) <==> TermHolds(s[6], v) || SumHolds(s[7..], v);
    assert SumHolds(s[7..], v) <==> TermHolds(s[7], v) || SumHolds(s[8..], v);
    assert SumHolds(s[8..], v) <==> TermHolds(s[8], v) || SumHolds(s[9..], v);
    assert SumHolds(s[9..], v) <==> TermHolds(s[9], v) || SumHolds(s[10..], v);
  }

  // ------------------------------------------ the tables are the equations
  // Each select output is high exactly when none of its rows holds.

  lemma BasicTable(v: Word)
    ensures Pla.F1(v) <==> !SumHolds(BasicTerms, v)
  {
  }

  lemma KernalTable(v: Word)
    ensures Pla.F2(v) <==> !SumHolds(KernalTerms, v)
  {
    Sum2(KernalTerms, v);
  }

  lemma CharomTable(v: Word)
    ensures Pla.F3(v) <==> !SumHolds(CharomTerms, v)
  {
    var s := CharomTerms;
    Sum5(s, v);
    // Naming the rows keeps the solver from searching for them.
    assert s[0] == Term(HIRAM | A15 | A14 | A12 | R_W | GAME, CHAREN | A13 | AEC);
    assert s[1] == Term(LORAM | A15 | A14 | A12 | R_W | GAME, CHAREN | A13 | AEC);
    assert s[2] == Term(HIRAM | A15 | A14 | A12 | R_W, CHAREN | A13 | AEC | EXROM | GAME);
    assert s[3] == Term(VA14 | AEC | GAME | VA12, VA13);
    assert s[4] == Term(VA14 | AEC | VA12, EXROM | GAME | VA13);
  }

  lemma ColourWriteTable(v: Word)
    ensures Pla.F4(v) <==> !SumHolds(ColourWriteTerms, v)
  {
  }

  lemma IoTable(v: Word)
    ensures Pla.F5(v) <==> !SumHolds(IoTerms, v)
  {
    Sum10(IoTerms, v);
  }

  lemma RomlTable(v: Word)
    ensures Pla.F6(v) <==> !SumHolds(RomlTerms, v)
  {
    Sum2(RomlTerms, v);
  }

  lemma RomhTable(v: Word)
    ensures Pla.F7(v) <==> !SumHolds(RomhTerms, v)
  {
    Sum3(RomhTerms, v);
  }

  /** The Ultimax terms hold exactly where the equation's five unmapped
   *  product terms do. */
  lemma UnmappedTable(v: Word)
    ensures SumHolds(UnmappedTerms, v) <==>
      (!Pla.A15(v) && !Pla.A14(v) && Pla.A12(v) && Pla.EXROM_(v) && !Pla.GAME_(v)) ||
      (!Pla.A15(v) && !Pla.A14(v) && Pla.A13(v) && Pla.EXROM_(v) && !Pla.GAME_(v)) ||
      (!Pla.A15(v) && Pla.A14(v) && Pla.EXROM_(v) && !Pla.GAME_(v)) ||
      (Pla.A15(v) && !Pla.A14(v) && Pla.A13(v) && Pla.EXROM_(v) && !Pla.GAME_(v)) ||
      (Pla.A15(v) && Pla.A14(v) && !Pla.A13(v) && !Pla.A12(v) && Pla.EXROM_(v) && !Pla.GAME_(v))
  {
    Sum5(UnmappedTerms, v);
  }

  /** Rows 1-23 of CASRAM_ are, in order, the rows of the six chip selects;
   *  then come the five Ultimax rows and the CAS_ row. */
  lemma CasramTermsAreSelectTerms()
    ensures CasramTerms ==
      BasicTerms + KernalTerms + CharomTerms + IoTerms + RomlTerms + RomhTerms +
      UnmappedTerms + [Term(CAS, 0)]
  {
  }

  /** CASRAM_ is high exactly when a chip select is active, an Ultimax
   *  unmapped row holds, or CAS_ is high. */
  lemma CasramTable(v: Word)
    ensures Pla.F0(v) <==> SumHolds(CasramTerms, v)
    ensures Pla.F0(v) <==>
      !Pla.F1(v) || !Pla.F2(v) || !Pla.F3(v) || !Pla.F5(v) || !Pla.F6(v) || !Pla.F7(v) ||
      SumHolds(UnmappedTerms, v) || Pla.CAS_(v)
  {
    CasramTermsAreSelectTerms();
    var s1 := BasicTerms + KernalTerms;
    var s2 := s1 + CharomTerms;
    var s3 := s2 + IoTerms;
    var s4 := s3 + RomlTerms;
    var s5 := s4 + RomhTerms;
    var s6 := s5 + UnmappedTerms;
    SumAppend(BasicTerms, KernalTerms, v);
    SumAppend(s1, CharomTerms, v);
    SumAppend(s2, IoTerms, v);
    SumAppend(s3, RomlTerms, v);
    SumAppend(s4, RomhTerms, v);
    SumAppend(s5, UnmappedTerms, v);
    SumAppend(s6, [Term(CAS, 0)], v);
    BasicTable(v);
    KernalTable(v);
    CharomTable(v);
    IoTable(v);
    RomlTable(v);
    RomhTable(v);
    UnmappedTable(v);
  }
}
