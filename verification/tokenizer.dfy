/**
 The case-fixing scan of `normalizeInput`. It reads the input with one character of
 lookahead: a letter starts a token and is upper-cased, the next character joins the
 token unchanged only when it is a lower-case ASCII letter, and every other character
 is copied as it is. The element table is never consulted.
 */
module Tokenizer {
  import opened Chars

  datatype Piece = Symbol(text: string) | Copied(c: char)

  function PieceText(p: Piece): string {
    match p
    case Symbol(t) => t
    case Copied(c) => [c]
  }

  /** `result += ...` over a sequence of iterations */
  function Text(ps: seq<Piece>): string {
    if |ps| == 0 then "" else PieceText(ps[0]) + Text(ps[1..])
  }

  /**
   The `while` loop of the tokeniser, from a token boundary `i`: a letter starts a
   token and is upper-cased, and a following lower-case letter joins it; any other
   character is copied.
   */
  function Lex(s: string, i: nat): (ps: seq<Piece>)
    requires i <= |s|
    ensures |Text(ps)| == |s| - i
    decreases |s| - i
  {
    if i == |s| then []
    else if !IsLetter(s[i]) then [Copied(s[i])] + Lex(s, i + 1)
    else if i + 1 < |s| && IsLower(s[i + 1]) then [Symbol([ToUpper(s[i]), s[i + 1]])] + Lex(s, i + 2)
    else [Symbol([ToUpper(s[i])])] + Lex(s, i + 1)
  }

  /** The scan over the whole input. It agrees with the position-by-position reading below. */
  function Tokenize(s: string): (r: string)
    ensures r == Canonical(s)
  {
    LexIsCanonical(s, 0);
    Text(Lex(s, 0))
  }

  /** Reference reading, position by position: does the letter at `k` begin a token? */
  predicate StartsToken(s: string, k: nat)
    requires k < |s|
    decreases k
  {
    IsLetter(s[k]) && !(k > 0 && IsLower(s[k]) && StartsToken(s, k - 1))
  }

  /** The character at `k` is the second letter of a two-letter token. */
  predicate Absorbed(s: string, k: nat)
    requires k < |s|
  {
    k > 0 && IsLower(s[k]) && StartsToken(s, k - 1)
  }

  /** Reference output: token-starting letters upper-cased, everything else kept. */
  function Canonical(s: string): (r: string)
    ensures |r| == |s|
  {
    seq(|s|, k requires 0 <= k < |s| => if StartsToken(s, k) then ToUpper(s[k]) else s[k])
  }

  /** The scan from any token boundary produces the reference output from there on. */
  lemma {:induction false} LexIsCanonical(s: string, i: nat)
    requires i <= |s|
    requires i == |s| || !Absorbed(s, i)
    ensures Text(Lex(s, i)) == Canonical(s)[i..]
    decreases |s| - i
  {
    if i < |s| {
      var c := Canonical(s);
      var ps := Lex(s, i);
      assert StartsToken(s, i) == IsLetter(s[i]);
      if IsLetter(s[i]) && i + 1 < |s| && IsLower(s[i + 1]) {
        assert ps == [Symbol([ToUpper(s[i]), s[i + 1]])] + Lex(s, i + 2);
        assert !StartsToken(s, i + 1);
        LexIsCanonical(s, i + 2);
        assert c[i..] == [c[i], c[i + 1]] + c[i + 2..];
      } else {
        assert ps == [if IsLetter(s[i]) then Symbol([ToUpper(s[i])]) else Copied(s[i])] + Lex(s, i + 1);
        LexIsCanonical(s, i + 1);
        assert c[i..] == [c[i]] + c[i + 1..];
      }
      assert Text(ps) == PieceText(ps[0]) + Text(ps[1..]);
    }
  }

  /** Upper-casing token starts does not move any token boundary. */
  lemma {:induction false} CanonicalKeepsTokens(s: string, k: nat)
    requires k < |s|
    ensures StartsToken(Canonical(s), k) == StartsToken(s, k)
    decreases k
  {
    var c := Canonical(s);
    CaseMappingKeepsClass(s[k]);
    if k > 0 {
      CanonicalKeepsTokens(s, k - 1);
    }
    if StartsToken(s, k) {
      assert IsLetter(c[k]) && !IsLower(c[k]);
    }
  }

  /** The tokeniser changes only the case of letters that start a token. */
  lemma TokenizeChangesOnlyCase(s: string)
    ensures |Tokenize(s)| == |s|
    ensures forall k :: 0 <= k < |s| && !IsLetter(s[k]) ==> Tokenize(s)[k] == s[k]
    ensures forall k :: 0 <= k < |s| && !StartsToken(s, k) ==> Tokenize(s)[k] == s[k]
    ensures forall k :: 0 <= k < |s| && StartsToken(s, k) ==> Tokenize(s)[k] == ToUpper(s[k])
    ensures Lower(Tokenize(s)) == Lower(s)
  {
    var t := Tokenize(s);
    forall k | 0 <= k < |s|
      ensures Lower(t)[k] == Lower(s)[k]
    {
      LowerOfUpper(s[k]);
    }
  }

  /** Tokenising twice is tokenising once. */
  lemma TokenizeIdempotent(s: string)
    ensures Tokenize(Tokenize(s)) == Tokenize(s)
  {
    var c := Canonical(s);
    forall k | 0 <= k < |s|
      ensures Canonical(c)[k] == c[k]
    {
      CanonicalKeepsTokens(s, k);
    }
  }

  /** Every lower-case letter directly follows an upper-case one. */
  predicate WellCased(f: string) {
    forall k :: 0 <= k < |f| && IsLower(f[k]) ==> k > 0 && IsUpper(f[k - 1])
  }

  /** The symbol a token starting at `k` spells: the letter and a following lower-case letter. */
  function SymbolAt(f: string, k: nat): (sym: string)
    requires k < |f|
    ensures 1 <= |sym| <= 2 && k + |sym| <= |f|
    ensures sym == f[k..k + |sym|]
    ensures |sym| == 2 <==> k + 1 < |f| && IsLower(f[k + 1])
  {
    if k + 1 < |f| && IsLower(f[k + 1]) then [f[k], f[k + 1]] else [f[k]]
  }

  /**
   One iteration of the scan at a letter emits the symbol starting there, its first
   letter upper-cased, and resumes right after it.
   */
  lemma {:induction false} LexReadsSymbol(s: string, i: nat)
    requires i < |s| && IsLetter(s[i])
    ensures Lex(s, i) == [Symbol([ToUpper(s[i])] + SymbolAt(s, i)[1..])] + Lex(s, i + |SymbolAt(s, i)|)
  {
    var sym := SymbolAt(s, i);
    var token := [ToUpper(s[i])] + sym[1..];
    if i + 1 < |s| && IsLower(s[i + 1]) {
      assert token == [ToUpper(s[i]), s[i + 1]] by {
        assert sym[1..] == [s[i + 1]];
      }
      assert Lex(s, i) == [Symbol(token)] + Lex(s, i + 2);
    } else {
      assert token == [ToUpper(s[i])] by {
        assert sym[1..] == [];
      }
      assert Lex(s, i) == [Symbol(token)] + Lex(s, i + 1);
    }
  }

  /** The character after a token start comes out of the scan unchanged. */
  lemma {:induction false} CanonicalAfterToken(s: string, k: nat)
    requires k + 1 < |s| && StartsToken(s, k)
    ensures Canonical(s)[k + 1] == s[k + 1]
  {
    if IsLower(s[k + 1]) {
      assert !StartsToken(s, k + 1);
    }
  }

  /**
   At every token start, the symbol read from the scan's output is the token the scan
   emitted there: the input's symbol with its first letter upper-cased.
   */
  lemma {:induction false} TokenizeSymbolAt(s: string, k: nat)
    requires k < |s| && StartsToken(s, k)
    ensures SymbolAt(Tokenize(s), k) == [ToUpper(s[k])] + SymbolAt(s, k)[1..]
  {
    var t := Tokenize(s);
    assert |t| == |s| && t[k] == ToUpper(s[k]);
    if k + 1 < |s| {
      CanonicalAfterToken(s, k);
    }
    var sym := SymbolAt(s, k);
    if |sym| == 2 {
      assert sym[1..] == [t[k + 1]];
    } else {
      assert sym[1..] == [];
    }
  }

  /** In a well-cased string the tokens start exactly at the upper-case letters. */
  lemma WellCasedTokens(f: string, k: nat)
    requires WellCased(f) && k < |f|
    ensures StartsToken(f, k) <==> IsUpper(f[k])
  {
    if IsLower(f[k]) {
      assert StartsToken(f, k - 1);
    }
  }

  /** The strings the scan leaves unchanged are exactly the well-cased ones. */
  lemma FixedPointsAreWellCased(f: string)
    ensures Tokenize(f) == f <==> WellCased(f)
  {
    var c := Canonical(f);
    if WellCased(f) {
      forall k | 0 <= k < |f| ensures c[k] == f[k] {
        WellCasedTokens(f, k);
      }
    }
    if c == f {
      forall k | 0 <= k < |f| && IsLower(f[k]) ensures k > 0 && IsUpper(f[k - 1]) {
        assert !StartsToken(f, k) by {
          assert c[k] == f[k];
        }
        assert StartsToken(f, k - 1);
        assert c[k - 1] == f[k - 1];
      }
    }
  }

  // Examples of the scan on its own

  lemma ExampleSodiumChloride()
    ensures Tokenize("nacl") == "NaCl"
  {
  }

  lemma ExampleWaterFormula()
    ensures Tokenize("h2o") == "H2O"
  {
  }

  /** Greedy pairing: a lower-case letter after a token start always joins it. */
  lemma ExampleAceticAcid()
    ensures Tokenize("ch3cooh") == "Ch3CoOh"
  {
  }

  /** "co2" reads as cobalt, not carbon monoxide. */
  lemma ExampleCarbonDioxide()
    ensures Tokenize("co2") == "Co2"
  {
  }
}
