/**
 * The library's unit tests, restated as lemmas about the model: each lemma
 * asserts the same expected values as one test function.
 */
module NucleobaseTests {
  import opened Nucleobases

  /** Adenine, Cytosine, Guanine and Thymine are DNA bases; Uracil is not. */
  lemma CorrectDeoxyribonucleotideBases()
    ensures IsDeoxyribonucleotideBase(Adenine)
    ensures IsDeoxyribonucleotideBase(Cytosine)
    ensures IsDeoxyribonucleotideBase(Guanine)
    ensures IsDeoxyribonucleotideBase(Thymine)
    ensures !IsDeoxyribonucleotideBase(Uracil)
  {
  }

  /** Adenine, Cytosine, Guanine and Uracil are RNA bases; Thymine is not. */
  lemma CorrectRibonucleotideBases()
    ensures IsRibonucleotideBase(Adenine)
    ensures IsRibonucleotideBase(Cytosine)
    ensures IsRibonucleotideBase(Guanine)
    ensures !IsRibonucleotideBase(Thymine)
    ensures IsRibonucleotideBase(Uracil)
  {
  }

  /** Each letter decodes in both cases; 'n' is not a letter code. */
  lemma CorrectLetterCodes()
    ensures FromLetterCode('a') == Some(Adenine) && FromLetterCode('A') == Some(Adenine)
    ensures FromLetterCode('c') == Some(Cytosine) && FromLetterCode('C') == Some(Cytosine)
    ensures FromLetterCode('g') == Some(Guanine) && FromLetterCode('G') == Some(Guanine)
    ensures FromLetterCode('t') == Some(Thymine) && FromLetterCode('T') == Some(Thymine)
    ensures FromLetterCode('u') == Some(Uracil) && FromLetterCode('U') == Some(Uracil)
    ensures FromLetterCode('n') == None
  {
  }
}
