# Nucleobases, modelled in Dafny

This project models the nucleobase library: a closed enumeration of the five
nucleobases (Adenine, Cytosine, Guanine, Thymine, Uracil) and the eight
functions defined on it in `src/lib.rs`:

- the structural classifiers `is_purine`, `is_pyrimidine`, `is_ketone`, `is_amine`;
- the membership classifiers `is_ribonucleotide_base` (RNA) and
  `is_deoxyribonucleotide_base` (DNA);
- the encoder `letter_code` (base to upper-case letter) and the
  case-insensitive decoder `from_letter_code` (letter to `Option<Nucleobase>`).

Every one of them is a single exhaustive `match` with no state, so the model is
pure: a `datatype Nucleobase` with five constructors, a `datatype Option`, and
one Dafny function per source function with the same `match` arms
(`nucleobase.dfy`, module `Nucleobases`). Dafny's `char` is a Unicode scalar
value, as a Rust `char` is, so the decoder's contract covers every character.
The library's unit tests are restated as lemmas in `tests.dfy`
(module `NucleobaseTests`).

`IsPurine`, `IsKetone` and `IsRibonucleotideBase` carry no contract of their
own: what the source promises about them is stated by their partners'
contracts (`IsPyrimidine`, `IsAmine`, `IsDeoxyribonucleotideBase`) and by the
partition lemmas.

## Model

| member | source | states |
|---|---|---|
| Nucleobases.IsPyrimidine | src/lib.rs:15-27 | a base is a pyrimidine exactly when it is not a purine |
| Nucleobases.IsAmine | src/lib.rs:29-41 | a base carries an amine group exactly when it carries no ketone group |
| Nucleobases.IsDeoxyribonucleotideBase | src/lib.rs:43-55 | every base is a DNA or an RNA base; Thymine is the only DNA-but-not-RNA base and Uracil the only RNA-but-not-DNA base |
| Nucleobases.LetterCode | src/lib.rs:57-65 | the code is one of 'A', 'C', 'G', 'T', 'U' and is an upper-case ASCII letter |
| Nucleobases.FromLetterCode | src/lib.rs:67-76 | a character decodes to some base exactly when it is one of the ten accepted letters, and then the base's letter code is the character's upper-case form |
| Nucleobases.PurinePyrimidinePartition | src/lib.rs:15-27 | the purines are exactly {Adenine, Guanine} and the pyrimidines exactly {Cytosine, Thymine, Uracil}, two and three bases |
| Nucleobases.AmineKetonePartition | src/lib.rs:29-41 | the amines are exactly {Adenine, Cytosine} and the ketones exactly {Guanine, Thymine, Uracil} |
| Nucleobases.LetterCodeInjective | src/lib.rs:57-65 | two bases with the same letter code are the same base |
| Nucleobases.LetterCodeOnto | src/lib.rs:57-65 | every one of 'A', 'C', 'G', 'T', 'U' is the letter code of some base |
| Nucleobases.RoundTrip | src/lib.rs:57-76 | decoding the letter code of a base gives that base back |
| Nucleobases.CaseInsensitive | src/lib.rs:67-76 | for every character, decoding its ASCII lower-case or upper-case form gives the same result as decoding it |
| Nucleobases.DecodeExactly | src/lib.rs:57-76 | a character decodes to a base exactly when it is that base's letter code or its lower-case form |
| Nucleobases.DecodePreimage | src/lib.rs:67-73 | the characters decoding to a base are exactly its letter code in upper and lower case, two characters |
| Nucleobases.Rejection | src/lib.rs:74 | every character other than A, C, G, T, U in either case decodes to nothing |
| NucleobaseTests.CorrectDeoxyribonucleotideBases | src/lib.rs:84-91 | Adenine, Cytosine, Guanine and Thymine are DNA bases; Uracil is not |
| NucleobaseTests.CorrectRibonucleotideBases | src/lib.rs:93-100 | Adenine, Cytosine, Guanine and Uracil are RNA bases; Thymine is not |
| NucleobaseTests.CorrectLetterCodes | src/lib.rs:102-115 | each of the five letters decodes to its base in both cases, and 'n' decodes to nothing |

## Left out

- The derived `Debug` and `PartialEq` implementations (src/lib.rs:4-5): Dafny datatype equality is the same structural equality, and debug formatting is not logic.
- The test harness itself (src/lib.rs:79-116) as code: its assertions are the lemmas of `tests.dfy`.
- Complement functions, a complementarity relation, parsing from a string with a typed error, and a display form: `src/lib.rs` defines none of them, so they are not part of this model.
