/**
 * A model of the nucleobase library: the closed enumeration of the five
 * nucleobases, the structural and membership classifiers over it, and the
 * conversion between a base and its one-letter code.
 *
 * Dafny's `char` (with the default `--unicode-char`) is a Unicode scalar
 * value, which is what a Rust `char` is, so the decoder is modelled on every
 * character the source can be handed.
 */
module Nucleobases {

  /** The source's `Option<Nucleobase>`. */
  datatype Option<+T> = None | Some(value: T)

  /** The five nucleobases, in the source's declaration order. */
  datatype Nucleobase = Adenine | Cytosine | Guanine | Thymine | Uracil

  /** Every value of the enumeration. */
  const AllBases: set<Nucleobase> := {Adenine, Cytosine, Guanine, Thymine, Uracil}

  /** The canonical (upper-case) letter codes. */
  const LetterCodes: set<char> := {'A', 'C', 'G', 'T', 'U'}

  /** Every character the decoder accepts: the letter codes in either case. */
  const AcceptedLetters: set<char> := {'A', 'C', 'G', 'T', 'U', 'a', 'c', 'g', 't', 'u'}

  /** ASCII upper-casing: letters 'a'..'z' move to 'A'..'Z', everything else is kept. */
  function AsciiUpper(c: char): char {
    if 'a' <= c <= 'z' then (c as int - 32) as char else c
  }

  /** ASCII lower-casing: letters 'A'..'Z' move to 'a'..'z', everything else is kept. */
  function AsciiLower(c: char): char {
    if 'A' <= c <= 'Z' then (c as int + 32) as char else c
  }

  // ---------------------------------------------------------------------------
  // Structural classifiers
  // ---------------------------------------------------------------------------

  /** Purines are the two-ring bases. */
  predicate IsPurine(b: Nucleobase)
  {
    match b
    case Adenine | Guanine => true
    case Cytosine | Thymine | Uracil => false
  }

  /** Pyrimidines are the one-ring bases: exactly the bases that are not purines. */
  function IsPyrimidine(b: Nucleobase): (r: bool)
    ensures r <==> !IsPurine(b)
  {
    match b
    case Adenine | Guanine => false
    case Cytosine | Thymine | Uracil => true
  }

  /** Bases carrying a ketone group. */
  predicate IsKetone(b: Nucleobase)
  {
    match b
    case Adenine | Cytosine => false
    case Guanine | Thymine | Uracil => true
  }

  /** Bases carrying an amine group: exactly the bases that carry no ketone group. */
  function IsAmine(b: Nucleobase): (r: bool)
    ensures r <==> !IsKetone(b)
  {
    match b
    case Adenine | Cytosine => true
    case Guanine | Thymine | Uracil => false
  }

  // ---------------------------------------------------------------------------
  // Membership classifiers
  // ---------------------------------------------------------------------------

  /** Bases that occur in RNA. */
  predicate IsRibonucleotideBase(b: Nucleobase)
  {
    match b
    case Adenine | Cytosine | Guanine | Uracil => true
    case Thymine => false
  }

  /**
   * Bases that occur in DNA. Together with IsRibonucleotideBase: every base
   * occurs in at least one of the two, Thymine is the only DNA-only base and
   * Uracil the only RNA-only base.
   */
  function IsDeoxyribonucleotideBase(b: Nucleobase): (r: bool)
    ensures r || IsRibonucleotideBase(b)
    ensures r && !IsRibonucleotideBase(b) <==> b == Thymine
    ensures !r && IsRibonucleotideBase(b) <==> b == Uracil
  {
    match b
    case Adenine | Cytosine | Guanine | Thymine => true
    case Uracil => false
  }

  // ---------------------------------------------------------------------------
  // Letter codes
  // ---------------------------------------------------------------------------

  /** The one-letter code of a base; always an upper-case ASCII letter. */
  function LetterCode(b: Nucleobase): (c: char)
    ensures c in LetterCodes
    ensures 'A' <= c <= 'Z' && AsciiUpper(c) == c
  {
    match b
    case Adenine => 'A'
    case Cytosine => 'C'
    case Guanine => 'G'
    case Thymine => 'T'
    case Uracil => 'U'
  }

  /**
   * Case-insensitive decoding of a one-letter code. A character decodes to
   * `b` exactly when its upper-case form is the letter code of `b`; it decodes
   * to nothing exactly when it is none of the ten accepted letters.
   */
  function FromLetterCode(c: char): (r: Option<Nucleobase>)
    ensures r.Some? <==> c in AcceptedLetters
    ensures r.Some? ==> LetterCode(r.value) == AsciiUpper(c)
  {
    match c
    case 'A' | 'a' => Some(Adenine)
    case 'C' | 'c' => Some(Cytosine)
    case 'G' | 'g' => Some(Guanine)
    case 'T' | 't' => Some(Thymine)
    case 'U' | 'u' => Some(Uracil)
    case _ => None
  }

  // ---------------------------------------------------------------------------
  // Properties
  // ---------------------------------------------------------------------------

  /** Purines and pyrimidines split the five bases into {A, G} and {C, T, U}. */
  lemma PurinePyrimidinePartition()
    ensures (set b | b in AllBases && IsPurine(b)) == {Adenine, Guanine}
    ensures (set b | b in AllBases && IsPyrimidine(b)) == {Cytosine, Thymine, Uracil}
    ensures |set b | b in AllBases && IsPurine(b)| == 2
    ensures |set b | b in AllBases && IsPyrimidine(b)| == 3
  {
  }

  /** Amines and ketones split the five bases into {A, C} and {G, T, U}. */
  lemma AmineKetonePartition()
    ensures (set b | b in AllBases && IsAmine(b)) == {Adenine, Cytosine}
    ensures (set b | b in AllBases && IsKetone(b)) == {Guanine, Thymine, Uracil}
  {
  }

  /** Distinct bases have distinct letter codes. */
  lemma LetterCodeInjective(x: Nucleobase, y: Nucleobase)
    requires LetterCode(x) == LetterCode(y)
    ensures x == y
  {
  }

  /** Every canonical letter code is the code of some base. */
  lemma LetterCodeOnto(c: char)
    requires c in LetterCodes
    ensures exists b :: LetterCode(b) == c
  {
    var b := FromLetterCode(c).value;
    assert LetterCode(b) == c;
  }

  /** Encoding then decoding gives the base back. */
  lemma RoundTrip(b: Nucleobase)
    ensures FromLetterCode(LetterCode(b)) == Some(b)
  {
  }

  /** Decoding is blind to ASCII case, for every character. */
  lemma CaseInsensitive(c: char)
    ensures FromLetterCode(AsciiLower(c)) == FromLetterCode(c)
    ensures FromLetterCode(AsciiUpper(c)) == FromLetterCode(c)
  {
  }

  /** A character decodes to `b` exactly when it is `b`'s code in either case. */
  lemma DecodeExactly(c: char, b: Nucleobase)
    ensures FromLetterCode(c) == Some(b) <==> c == LetterCode(b) || c == AsciiLower(LetterCode(b))
  {
  }

  /** Each base is decoded from exactly two characters: its code in upper and in lower case. */
  lemma DecodePreimage(b: Nucleobase)
    ensures (set c | c in AcceptedLetters && FromLetterCode(c) == Some(b)) == {LetterCode(b), AsciiLower(LetterCode(b))}
    ensures |set c | c in AcceptedLetters && FromLetterCode(c) == Some(b)| == 2
  {
  }

  /** Every character outside the ten accepted letters is rejected. */
  lemma Rejection(c: char)
    requires c !in AcceptedLetters
    ensures FromLetterCode(c) == None
  {
  }
}
