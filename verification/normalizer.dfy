/**
 `normalizeInput`: the compound table takes priority; otherwise the original,
 untrimmed input goes through the case-fixing scan.
 */
module Normalizer {
  import opened Chars
  import opened Tables
  import opened AliasKeys
  import opened Tokenizer

  /**
   `normalizeInput`, with the alias lookup restricted to the compound table's own
   entries (see `NormalizeAsWritten` for the lookup as the source writes it).
   */
  function Normalize(input: string): (r: string)
    ensures CompoundFormula(AliasKey(input)).Some? ==> r == CompoundFormula(AliasKey(input)).value
    ensures CompoundFormula(AliasKey(input)).None? ==>
              && |r| == |input|
              && Lower(r) == Lower(input)
              && (forall k :: 0 <= k < |input| && !IsLetter(input[k]) ==> r[k] == input[k])
  {
    match CompoundFormula(AliasKey(input))
    case Some(formula) => formula
    case None =>
      TokenizeChangesOnlyCase(input);
      Tokenize(input)
  }

  // ---------------------------------------------------------------------------
  // The compound table against the scan and the element table
  // ---------------------------------------------------------------------------

  /** The characters a formula is written with: letters, digits and parentheses. */
  predicate IsFormulaChar(c: char) {
    IsLetter(c) || IsDigit(c) || c == '(' || c == ')'
  }

  /** The element symbols the compound table's formulas use. */
  const AliasSymbols: set<string> := {"H", "C", "N", "O", "S", "Na", "Cl", "Ca", "Mg"}

  lemma AliasSymbolsKnown(sym: string)
    requires sym in AliasSymbols
    ensures AtomicWeight(sym).Some?
  {
  }

  /** Character-by-character check of one table formula from position `i` on. */
  predicate FormulaFrom(f: string, i: nat)
    decreases |f| - i
  {
    i >= |f| ||
      (&& IsFormulaChar(f[i])
       && (IsLower(f[i]) ==> i > 0 && IsUpper(f[i - 1]))
       && (IsUpper(f[i]) ==> SymbolAt(f, i) in AliasSymbols)
       && FormulaFrom(f, i + 1))
  }

  lemma {:induction false} FormulaFromHolds(f: string, i: nat, k: nat)
    requires FormulaFrom(f, i) && i <= k < |f|
    ensures IsFormulaChar(f[k])
    ensures IsLower(f[k]) ==> k > 0 && IsUpper(f[k - 1])
    ensures IsUpper(f[k]) ==> SymbolAt(f, k) in AliasSymbols
    decreases k - i
  {
    if i < k {
      FormulaFromHolds(f, i + 1, k);
    }
  }

  /** A table formula: non-empty, well cased, made of known symbols, digits and parentheses. */
  predicate AliasFormulaOk(f: string) {
    && |f| > 0
    && NoSpace(f)
    && WellCased(f)
    && Tokenize(f) == f
    && (forall k :: 0 <= k < |f| && IsUpper(f[k]) ==> AtomicWeight(SymbolAt(f, k)).Some?)
    && CompoundFormula(AliasKey(f)).None?
  }

  /** Character-by-character check that a name has only lower-case letters and underscores from `i` on. */
  predicate WordFrom(name: string, i: nat)
    decreases |name| - i
  {
    i >= |name| || ((IsLower(name[i]) || name[i] == '_') && WordFrom(name, i + 1))
  }

  lemma {:induction false} WordFromHolds(name: string, i: nat, k: nat)
    requires WordFrom(name, i) && i <= k < |name|
    ensures IsLower(name[k]) || name[k] == '_'
    decreases k - i
  {
    if i < k {
      WordFromHolds(name, i + 1, k);
    }
  }

  /** The names `water` to `carbon_monoxide` are words. */
  lemma NamesAreWordsWaterToCarbonMonoxide(name: string)
    requires name == "water" || name == "ammonia" || name == "methane" || name == "carbon_dioxide" || name == "carbon_monoxide"
    ensures WordFrom(name, 0)
  {
    match name
    case "water" => assert WordFrom("water", 0);
    case "ammonia" => assert WordFrom("ammonia", 0);
    case "methane" => assert WordFrom("methane", 0);
    case "carbon_dioxide" =>
      assert WordFrom("carbon_dioxide", 7);
      assert WordFrom("carbon_dioxide", 0);
    case "carbon_monoxide" =>
      assert WordFrom("carbon_monoxide", 7);
      assert WordFrom("carbon_monoxide", 0);
  }

  /** The names `sulfuric_acid` to `acetic_acid` are words. */
  lemma NamesAreWordsSulfuricAcidToAceticAcid(name: string)
    requires name == "sulfuric_acid" || name == "nitric_acid" || name == "glucose" || name == "ethanol" || name == "acetic_acid"
    ensures WordFrom(name, 0)
  {
    match name
    case "sulfuric_acid" =>
      assert WordFrom("sulfuric_acid", 6);
      assert WordFrom("sulfuric_acid", 0);
    case "nitric_acid" =>
      assert WordFrom("nitric_acid", 5);
      assert WordFrom("nitric_acid", 0);
    case "glucose" => assert WordFrom("glucose", 0);
    case "ethanol" => assert WordFrom("ethanol", 0);
    case "acetic_acid" =>
      assert WordFrom("acetic_acid", 5);
      assert WordFrom("acetic_acid", 0);
  }

  /** The names `sodium_chloride` to `hydrogen_peroxide` are words. */
  lemma NamesAreWordsSodiumChlorideToHydrogenPeroxide(name: string)
    requires name == "sodium_chloride" || name == "calcium_carbonate" || name == "magnesium_hydroxide" || name == "baking_soda" || name == "hydrogen_peroxide"
    ensures WordFrom(name, 0)
  {
    match name
    case "sodium_chloride" =>
      assert WordFrom("sodium_chloride", 7);
      assert WordFrom("sodium_chloride", 0);
    case "calcium_carbonate" =>
      assert WordFrom("calcium_carbonate", 8);
      assert WordFrom("calcium_carbonate", 0);
    case "magnesium_hydroxide" =>
      assert WordFrom("magnesium_hydroxide", 9);
      assert WordFrom("magnesium_hydroxide", 0);
    case "baking_soda" =>
      assert WordFrom("baking_soda", 5);
      assert WordFrom("baking_soda", 0);
    case "hydrogen_peroxide" =>
      assert WordFrom("hydrogen_peroxide", 8);
      assert WordFrom("hydrogen_peroxide", 0);
  }

  /** Every alias name is written with lower-case letters and underscores only. */
  lemma AliasNamesAreWords(name: string)
    requires CompoundFormula(name).Some?
    ensures forall k :: 0 <= k < |name| ==> IsLower(name[k]) || name[k] == '_'
  {
    if name == "water" || name == "ammonia" || name == "methane" || name == "carbon_dioxide" || name == "carbon_monoxide" {
      NamesAreWordsWaterToCarbonMonoxide(name);
    }
    if name == "sulfuric_acid" || name == "nitric_acid" || name == "glucose" || name == "ethanol" || name == "acetic_acid" {
      NamesAreWordsSulfuricAcidToAceticAcid(name);
    }
    if name == "sodium_chloride" || name == "calcium_carbonate" || name == "magnesium_hydroxide" || name == "baking_soda" || name == "hydrogen_peroxide" {
      NamesAreWordsSodiumChlorideToHydrogenPeroxide(name);
    }
    forall k | 0 <= k < |name|
      ensures IsLower(name[k]) || name[k] == '_'
    {
      WordFromHolds(name, 0, k);
    }
  }

  /** A key with a digit in it is not an alias name. */
  lemma DigitKeyIsNoAlias(key: string, d: nat)
    requires d < |key| && IsDigit(key[d])
    ensures CompoundFormula(key).None?
  {
    if CompoundFormula(key).Some? {
      AliasNamesAreWords(key);
    }
  }

  /** What the character check of a formula establishes about its characters. */
  lemma FormulaFromShape(f: string)
    requires FormulaFrom(f, 0)
    ensures NoSpace(f) && WellCased(f)
    ensures forall k :: 0 <= k < |f| && IsUpper(f[k]) ==> SymbolAt(f, k) in AliasSymbols
  {
    forall k | 0 <= k < |f|
      ensures IsFormulaChar(f[k])
      ensures IsLower(f[k]) ==> k > 0 && IsUpper(f[k - 1])
      ensures IsUpper(f[k]) ==> SymbolAt(f, k) in AliasSymbols
    {
      FormulaFromHolds(f, 0, k);
    }
  }

  lemma SymbolsKnown(f: string)
    requires forall k :: 0 <= k < |f| && IsUpper(f[k]) ==> SymbolAt(f, k) in AliasSymbols
    ensures forall k :: 0 <= k < |f| && IsUpper(f[k]) ==> AtomicWeight(SymbolAt(f, k)).Some?
  {
    forall k | 0 <= k < |f| && IsUpper(f[k])
      ensures AtomicWeight(SymbolAt(f, k)).Some?
    {
      AliasSymbolsKnown(SymbolAt(f, k));
    }
  }

  /** What the character check of a formula, and its key not being a name, give. */
  lemma CheckedFormulaOk(f: string)
    requires |f| > 0 && FormulaFrom(f, 0)
    requires CompoundFormula(Lower(f)).None?
    ensures AliasFormulaOk(f)
  {
    FormulaFromShape(f);
    SymbolsKnown(f);
    FixedPointsAreWellCased(f);
    NoSpaceKey(f);
  }

  /** As `CheckedFormulaOk`, for a formula with a digit at position `d`. */
  lemma CheckedFormulaWithDigitOk(f: string, d: nat)
    requires |f| > 0 && FormulaFrom(f, 0)
    requires d < |f| && IsDigit(f[d])
    ensures AliasFormulaOk(f)
  {
    DigitKeyIsNoAlias(Lower(f), d);
    CheckedFormulaOk(f);
  }

  /** The formulas of `water`, `ammonia` and `methane`. */
  lemma FormulasWaterToMethaneOk(name: string)
    requires name == "water" || name == "ammonia" || name == "methane"
    ensures CompoundFormula(name).Some? && AliasFormulaOk(CompoundFormula(name).value)
  {
    match name
    case "water" =>
      assert FormulaFrom("H2O", 0);
      CheckedFormulaWithDigitOk(CompoundFormula(name).value, 1);
    case "ammonia" =>
      assert FormulaFrom("NH3", 0);
      CheckedFormulaWithDigitOk(CompoundFormula(name).value, 2);
    case "methane" =>
      assert FormulaFrom("CH4", 0);
      CheckedFormulaWithDigitOk(CompoundFormula(name).value, 2);
  }

  /** The formulas of `carbon_dioxide`, `carbon_monoxide` and `sulfuric_acid`. */
  lemma FormulasCarbonDioxideToSulfuricAcidOk(name: string)
    requires name == "carbon_dioxide" || name == "carbon_monoxide" || name == "sulfuric_acid"
    ensures CompoundFormula(name).Some? && AliasFormulaOk(CompoundFormula(name).value)
  {
    match name
    case "carbon_dioxide" =>
      assert FormulaFrom("CO2", 0);
      CheckedFormulaWithDigitOk(CompoundFormula(name).value, 2);
    case "carbon_monoxide" =>
      assert FormulaFrom("CO", 0);
      CheckedFormulaOk(CompoundFormula(name).value);
    case "sulfuric_acid" =>
      assert FormulaFrom("H2SO4", 0);
      CheckedFormulaWithDigitOk(CompoundFormula(name).value, 1);
  }

  /** The formulas of `nitric_acid`, `glucose` and `ethanol`. */
  lemma FormulasNitricAcidToEthanolOk(name: string)
    requires name == "nitric_acid" || name == "glucose" || name == "ethanol"
    ensures CompoundFormula(name).Some? && AliasFormulaOk(CompoundFormula(name).value)
  {
    match name
    case "nitric_acid" =>
      assert FormulaFrom("HNO3", 0);
      CheckedFormulaWithDigitOk(CompoundFormula(name).value, 3);
    case "glucose" =>
      assert FormulaFrom("C6H12O6", 0);
      CheckedFormulaWithDigitOk(CompoundFormula(name).value, 1);
    case "ethanol" =>
      assert FormulaFrom("C2H5OH", 0);
      CheckedFormulaWithDigitOk(CompoundFormula(name).value, 1);
  }

  /** The formulas of `acetic_acid`, `sodium_chloride` and `calcium_carbonate`. */
  lemma FormulasAceticAcidToCalciumCarbonateOk(name: string)
    requires name == "acetic_acid" || name == "sodium_chloride" || name == "calcium_carbonate"
    ensures CompoundFormula(name).Some? && AliasFormulaOk(CompoundFormula(name).value)
  {
    match name
    case "acetic_acid" =>
      assert FormulaFrom("CH3COOH", 0);
      CheckedFormulaWithDigitOk(CompoundFormula(name).value, 2);
    case "sodium_chloride" =>
      assert FormulaFrom("NaCl", 0);
      CheckedFormulaOk(CompoundFormula(name).value);
    case "calcium_carbonate" =>
      assert FormulaFrom("CaCO3", 0);
      CheckedFormulaWithDigitOk(CompoundFormula(name).value, 4);
  }

  /** The formulas of `magnesium_hydroxide`, `baking_soda` and `hydrogen_peroxide`. */
  lemma FormulasMagnesiumHydroxideToHydrogenPeroxideOk(name: string)
    requires name == "magnesium_hydroxide" || name == "baking_soda" || name == "hydrogen_peroxide"
    ensures CompoundFormula(name).Some? && AliasFormulaOk(CompoundFormula(name).value)
  {
    match name
    case "magnesium_hydroxide" =>
      assert FormulaFrom("Mg(OH)2", 0);
      CheckedFormulaWithDigitOk(CompoundFormula(name).value, 6);
    case "baking_soda" =>
      assert FormulaFrom("NaHCO3", 0);
      CheckedFormulaWithDigitOk(CompoundFormula(name).value, 5);
    case "hydrogen_peroxide" =>
      assert FormulaFrom("H2O2", 0);
      CheckedFormulaWithDigitOk(CompoundFormula(name).value, 1);
  }

  /**
   Every formula in the compound table is non-empty, already in the scan's output
   form, spelled with symbols of the element table, and not itself an alias key.
   */
  lemma AliasFormulasAreOk(name: string)
    requires CompoundFormula(name).Some?
    ensures AliasFormulaOk(CompoundFormula(name).value)
  {
    if name == "water" || name == "ammonia" || name == "methane" {
      FormulasWaterToMethaneOk(name);
    }
    if name == "carbon_dioxide" || name == "carbon_monoxide" || name == "sulfuric_acid" {
      FormulasCarbonDioxideToSulfuricAcidOk(name);
    }
    if name == "nitric_acid" || name == "glucose" || name == "ethanol" {
      FormulasNitricAcidToEthanolOk(name);
    }
    if name == "acetic_acid" || name == "sodium_chloride" || name == "calcium_carbonate" {
      FormulasAceticAcidToCalciumCarbonateOk(name);
    }
    if name == "magnesium_hydroxide" || name == "baking_soda" || name == "hydrogen_peroxide" {
      FormulasMagnesiumHydroxideToHydrogenPeroxideOk(name);
    }
  }

  /** Typing an alias name exactly as the table spells it finds it. */
  lemma AliasNamesAreKeys(name: string)
    requires CompoundFormula(name).Some?
    ensures AliasKey(name) == name
    ensures Normalize(name) == CompoundFormula(name).value
  {
    AliasNamesAreWords(name);
    WordIsOwnKey(name);
  }

  // ---------------------------------------------------------------------------
  // Normalizing twice
  // ---------------------------------------------------------------------------

  /** Normalizing an already normalized input changes nothing. */
  lemma NormalizeIdempotent(input: string)
    ensures Normalize(Normalize(input)) == Normalize(input)
  {
    var r := Normalize(input);
    match CompoundFormula(AliasKey(input))
    case Some(formula) =>
      AliasFormulasAreOk(AliasKey(input));
      assert Normalize(formula) == formula;
    case None =>
      TokenizeChangesOnlyCase(input);
      AliasKeyIgnoresCase(r, input);
      TokenizeIdempotent(input);
  }

  // ---------------------------------------------------------------------------
  // The lookup as written: `compoundNames[lower]` on a plain object literal
  // ---------------------------------------------------------------------------

  /** What reading a property of the `compoundNames` object literal yields. */
  datatype Property =
    | Own(formula: string)       // an entry of the table
    | Inherited(name: string)    // a member of `Object.prototype`, a function or an object
    | Absent                     // `undefined`

  /** The lower-case keys (as `AliasKey` can produce them) that `Object.prototype` supplies. */
  predicate IsInheritedKey(key: string) {
    key == "constructor" || key == "__proto__"
  }

  function PropertyOf(key: string): (p: Property)
    ensures p.Own? <==> CompoundFormula(key).Some?
    ensures p.Own? ==> p.formula == CompoundFormula(key).value
    ensures p.Inherited? <==> CompoundFormula(key).None? && IsInheritedKey(key)
  {
    match CompoundFormula(key)
    case Some(formula) => Own(formula)
    case None => if IsInheritedKey(key) then Inherited(key) else Absent
  }

  /** JavaScript truthiness of a property value: functions and objects are truthy, `""` is not. */
  predicate Truthy(p: Property) {
    match p
    case Own(formula) => formula != ""
    case Inherited(_) => true
    case Absent => false
  }

  /** The outcome of `normalizeInput` as written: a formula string, or an inherited member. */
  datatype Normalized = Formula(text: string) | NotAFormula(member: string)

  /**
   `normalizeInput` exactly as written: any truthy property of the object literal
   is returned, including those inherited from `Object.prototype`.
   */
  function NormalizeAsWritten(input: string): (r: Normalized)
    ensures r.NotAFormula? <==> IsInheritedKey(AliasKey(input))
    ensures r.NotAFormula? ==> r.member == AliasKey(input)
    ensures r.Formula? ==> r.text == Normalize(input)
  {
    var p := PropertyOf(AliasKey(input));
    if Truthy(p) then
      match p
      case Own(formula) => Formula(formula)
      case Inherited(name) => NotAFormula(name)
    else
      AliasFormulaNonEmpty(AliasKey(input));
      Formula(Tokenize(input))
  }

  /** Every table entry is truthy, so the truthiness test is the same as membership. */
  lemma AliasFormulaNonEmpty(key: string)
    ensures CompoundFormula(key).Some? ==> Truthy(PropertyOf(key))
  {
    if CompoundFormula(key).Some? {
      AliasFormulasAreOk(key);
    }
  }

  /** Typing "constructor" reaches an inherited key that is not in the table. */
  lemma ConstructorIsInheritedKey(s: string)
    requires s == "constructor"
    ensures AliasKey(s) == "constructor" && IsInheritedKey(AliasKey(s))
    ensures NormalizeAsWritten(s) == NotAFormula("constructor")
  {
    WordIsOwnKey(s);
  }

  /** Away from the two inherited keys, the lookup as written agrees with `Normalize`. */
  lemma AsWrittenAgreesOffInheritedKeys(input: string)
    requires !IsInheritedKey(AliasKey(input))
    ensures NormalizeAsWritten(input) == Formula(Normalize(input))
  {
  }

  // ---------------------------------------------------------------------------
  // Examples
  // ---------------------------------------------------------------------------

  /** The two branches of `Normalize`, stated for a key already worked out. */
  lemma NormalizeFromKey(input: string, key: string)
    requires AliasKey(input) == key
    ensures CompoundFormula(key).Some? ==> Normalize(input) == CompoundFormula(key).value
    ensures CompoundFormula(key).None? ==> Normalize(input) == Tokenize(input)
  {
  }

  lemma ExampleWater()
    ensures Normalize("water") == "H2O"
  {
    AliasNamesAreKeys("water");
  }

  /** A formula typed in lower case is not a name, so the scan capitalises it. */
  lemma ExampleLowerCaseFormula(s: string)
    requires |s| == 3 && s[0] == 'h' && s[1] == '2' && s[2] == 'o'
    ensures Normalize(s) == "H2O"
  {
    NoSpaceKey(s);
    DigitKeyIsNoAlias(Lower(s), 1);
    NormalizeFromKey(s, Lower(s));
    TokenizeChangesOnlyCase(s);
    assert StartsToken(s, 0) && !StartsToken(s, 1) && StartsToken(s, 2);
    var r := Tokenize(s);
    assert r[0] == 'H' && r[1] == '2' && r[2] == 'O';
  }
}
