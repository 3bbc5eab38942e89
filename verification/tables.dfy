/**
 The two constant tables of the calculator. Both are JavaScript object literals in
 the source; here each is a lookup function that yields `None` where the object has
 no own property. Weights are decimal literals, so `real` holds them exactly.
 */
module Tables {
  import opened Chars

  datatype Option<+T> = None | Some(value: T)

  /** An element symbol: one upper-case letter, optionally followed by one lower-case letter. */
  predicate IsSymbol(s: string) {
    && (|s| == 1 || |s| == 2)
    && IsUpper(s[0])
    && (|s| == 2 ==> IsLower(s[1]))
  }

  // `atomicWeights`, one function per line of the table, named by the first and last
  // symbol on that line

  function WeightsHToO(s: string): Option<real> {
    match s
    case "H" => Some(1.008)
    case "He" => Some(4.0026)
    case "Li" => Some(6.94)
    case "Be" => Some(9.0122)
    case "B" => Some(10.81)
    case "C" => Some(12.011)
    case "N" => Some(14.007)
    case "O" => Some(15.999)
    case _ => None
  }

  function WeightsFToS(s: string): Option<real> {
    match s
    case "F" => Some(18.998)
    case "Ne" => Some(20.180)
    case "Na" => Some(22.990)
    case "Mg" => Some(24.305)
    case "Al" => Some(26.982)
    case "Si" => Some(28.085)
    case "P" => Some(30.974)
    case "S" => Some(32.06)
    case _ => None
  }

  function WeightsClToV(s: string): Option<real> {
    match s
    case "Cl" => Some(35.45)
    case "Ar" => Some(39.948)
    case "K" => Some(39.098)
    case "Ca" => Some(40.078)
    case "Sc" => Some(44.956)
    case "Ti" => Some(47.867)
    case "V" => Some(50.942)
    case _ => None
  }

  function WeightsCrToZn(s: string): Option<real> {
    match s
    case "Cr" => Some(51.996)
    case "Mn" => Some(54.938)
    case "Fe" => Some(55.845)
    case "Co" => Some(58.933)
    case "Ni" => Some(58.693)
    case "Cu" => Some(63.546)
    case "Zn" => Some(65.38)
    case _ => None
  }

  function WeightsGaToRb(s: string): Option<real> {
    match s
    case "Ga" => Some(69.723)
    case "Ge" => Some(72.630)
    case "As" => Some(74.922)
    case "Se" => Some(78.971)
    case "Br" => Some(79.904)
    case "Kr" => Some(83.798)
    case "Rb" => Some(85.468)
    case _ => None
  }

  function WeightsSrToRu(s: string): Option<real> {
    match s
    case "Sr" => Some(87.62)
    case "Y" => Some(88.906)
    case "Zr" => Some(91.224)
    case "Nb" => Some(92.906)
    case "Mo" => Some(95.95)
    case "Tc" => Some(98.0)
    case "Ru" => Some(101.07)
    case _ => None
  }

  function WeightsRhToSb(s: string): Option<real> {
    match s
    case "Rh" => Some(102.91)
    case "Pd" => Some(106.42)
    case "Ag" => Some(107.87)
    case "Cd" => Some(112.41)
    case "In" => Some(114.82)
    case "Sn" => Some(118.71)
    case "Sb" => Some(121.76)
    case _ => None
  }

  function WeightsTeToCe(s: string): Option<real> {
    match s
    case "Te" => Some(127.60)
    case "I" => Some(126.90)
    case "Xe" => Some(131.29)
    case "Cs" => Some(132.91)
    case "Ba" => Some(137.33)
    case "La" => Some(138.91)
    case "Ce" => Some(140.12)
    case _ => None
  }

  function WeightsPrToTb(s: string): Option<real> {
    match s
    case "Pr" => Some(140.91)
    case "Nd" => Some(144.24)
    case "Pm" => Some(145.0)
    case "Sm" => Some(150.36)
    case "Eu" => Some(151.96)
    case "Gd" => Some(157.25)
    case "Tb" => Some(158.93)
    case _ => None
  }

  function WeightsDyToHf(s: string): Option<real> {
    match s
    case "Dy" => Some(162.50)
    case "Ho" => Some(164.93)
    case "Er" => Some(167.26)
    case "Tm" => Some(168.93)
    case "Yb" => Some(173.05)
    case "Lu" => Some(174.97)
    case "Hf" => Some(178.49)
    case _ => None
  }

  function WeightsTaToAu(s: string): Option<real> {
    match s
    case "Ta" => Some(180.95)
    case "W" => Some(183.84)
    case "Re" => Some(186.21)
    case "Os" => Some(190.23)
    case "Ir" => Some(192.22)
    case "Pt" => Some(195.08)
    case "Au" => Some(196.97)
    case _ => None
  }

  function WeightsHgToRn(s: string): Option<real> {
    match s
    case "Hg" => Some(200.59)
    case "Tl" => Some(204.38)
    case "Pb" => Some(207.2)
    case "Bi" => Some(208.98)
    case "Po" => Some(209.0)
    case "At" => Some(210.0)
    case "Rn" => Some(222.0)
    case _ => None
  }

  function WeightsFrToNp(s: string): Option<real> {
    match s
    case "Fr" => Some(223.0)
    case "Ra" => Some(226.0)
    case "Ac" => Some(227.0)
    case "Th" => Some(232.04)
    case "Pa" => Some(231.04)
    case "U" => Some(238.03)
    case "Np" => Some(237.0)
    case _ => None
  }

  function WeightsPuToFm(s: string): Option<real> {
    match s
    case "Pu" => Some(244.0)
    case "Am" => Some(243.0)
    case "Cm" => Some(247.0)
    case "Bk" => Some(247.0)
    case "Cf" => Some(251.0)
    case "Es" => Some(252.0)
    case "Fm" => Some(257.0)
    case _ => None
  }

  function WeightsMdToBh(s: string): Option<real> {
    match s
    case "Md" => Some(258.0)
    case "No" => Some(259.0)
    case "Lr" => Some(262.0)
    case "Rf" => Some(267.0)
    case "Db" => Some(270.0)
    case "Sg" => Some(271.0)
    case "Bh" => Some(270.0)
    case _ => None
  }

  function WeightsHsToFl(s: string): Option<real> {
    match s
    case "Hs" => Some(277.0)
    case "Mt" => Some(278.0)
    case "Ds" => Some(281.0)
    case "Rg" => Some(282.0)
    case "Cn" => Some(285.0)
    case "Nh" => Some(286.0)
    case "Fl" => Some(289.0)
    case _ => None
  }

  function WeightsMcToOg(s: string): Option<real> {
    match s
    case "Mc" => Some(290.0)
    case "Lv" => Some(293.0)
    case "Ts" => Some(294.0)
    case "Og" => Some(294.0)
    case _ => None
  }

  function Or(a: Option<real>, b: Option<real>): Option<real> {
    if a.Some? then a else b
  }

  /**
   `atomicWeights[symbol]` for the 118 elements. Every symbol the table knows is well
   formed and has a positive weight.
   */
  function AtomicWeight(symbol: string): (r: Option<real>)
    ensures r.Some? ==> IsSymbol(symbol) && r.value > 0.0
  {
    WeightsHToOWellFormed(symbol);
    WeightsFToSWellFormed(symbol);
    WeightsClToVWellFormed(symbol);
    WeightsCrToZnWellFormed(symbol);
    WeightsGaToRbWellFormed(symbol);
    WeightsSrToRuWellFormed(symbol);
    WeightsRhToSbWellFormed(symbol);
    WeightsTeToCeWellFormed(symbol);
    WeightsPrToTbWellFormed(symbol);
    WeightsDyToHfWellFormed(symbol);
    WeightsTaToAuWellFormed(symbol);
    WeightsHgToRnWellFormed(symbol);
    WeightsFrToNpWellFormed(symbol);
    WeightsPuToFmWellFormed(symbol);
    WeightsMdToBhWellFormed(symbol);
    WeightsHsToFlWellFormed(symbol);
    WeightsMcToOgWellFormed(symbol);
    Or(WeightsHToO(symbol),
    Or(WeightsFToS(symbol),
    Or(WeightsClToV(symbol),
    Or(WeightsCrToZn(symbol),
    Or(WeightsGaToRb(symbol),
    Or(WeightsSrToRu(symbol),
    Or(WeightsRhToSb(symbol),
    Or(WeightsTeToCe(symbol),
    Or(WeightsPrToTb(symbol),
    Or(WeightsDyToHf(symbol),
    Or(WeightsTaToAu(symbol),
    Or(WeightsHgToRn(symbol),
    Or(WeightsFrToNp(symbol),
    Or(WeightsPuToFm(symbol),
    Or(WeightsMdToBh(symbol),
    Or(WeightsHsToFl(symbol),
    WeightsMcToOg(symbol)))))))))))))))))
  }

  /** `compoundNames[name]`, own properties only. Every formula is a non-empty string. */
  function CompoundFormula(name: string): (r: Option<string>)
    ensures r.Some? ==> |r.value| > 0
  {
    match name
    case "water" => Some("H2O")
    case "ammonia" => Some("NH3")
    case "methane" => Some("CH4")
    case "carbon_dioxide" => Some("CO2")
    case "carbon_monoxide" => Some("CO")
    case "sulfuric_acid" => Some("H2SO4")
    case "nitric_acid" => Some("HNO3")
    case "glucose" => Some("C6H12O6")
    case "ethanol" => Some("C2H5OH")
    case "acetic_acid" => Some("CH3COOH")
    case "sodium_chloride" => Some("NaCl")
    case "calcium_carbonate" => Some("CaCO3")
    case "magnesium_hydroxide" => Some("Mg(OH)2")
    case "baking_soda" => Some("NaHCO3")
    case "hydrogen_peroxide" => Some("H2O2")
    case _ => None
  }

  // One lemma per line of the table: a single obligation over all 118 entries is too large.

  lemma WeightsHToOWellFormed(s: string)
    ensures WeightsHToO(s).Some? ==> IsSymbol(s) && WeightsHToO(s).value > 0.0
  {
  }

  lemma WeightsFToSWellFormed(s: string)
    ensures WeightsFToS(s).Some? ==> IsSymbol(s) && WeightsFToS(s).value > 0.0
  {
  }

  lemma WeightsClToVWellFormed(s: string)
    ensures WeightsClToV(s).Some? ==> IsSymbol(s) && WeightsClToV(s).value > 0.0
  {
  }

  lemma WeightsCrToZnWellFormed(s: string)
    ensures WeightsCrToZn(s).Some? ==> IsSymbol(s) && WeightsCrToZn(s).value > 0.0
  {
  }

  lemma WeightsGaToRbWellFormed(s: string)
    ensures WeightsGaToRb(s).Some? ==> IsSymbol(s) && WeightsGaToRb(s).value > 0.0
  {
  }

  lemma WeightsSrToRuWellFormed(s: string)
    ensures WeightsSrToRu(s).Some? ==> IsSymbol(s) && WeightsSrToRu(s).value > 0.0
  {
  }

  lemma WeightsRhToSbWellFormed(s: string)
    ensures WeightsRhToSb(s).Some? ==> IsSymbol(s) && WeightsRhToSb(s).value > 0.0
  {
  }

  lemma WeightsTeToCeWellFormed(s: string)
    ensures WeightsTeToCe(s).Some? ==> IsSymbol(s) && WeightsTeToCe(s).value > 0.0
  {
  }

  lemma WeightsPrToTbWellFormed(s: string)
    ensures WeightsPrToTb(s).Some? ==> IsSymbol(s) && WeightsPrToTb(s).value > 0.0
  {
  }

  lemma WeightsDyToHfWellFormed(s: string)
    ensures WeightsDyToHf(s).Some? ==> IsSymbol(s) && WeightsDyToHf(s).value > 0.0
  {
  }

  lemma WeightsTaToAuWellFormed(s: string)
    ensures WeightsTaToAu(s).Some? ==> IsSymbol(s) && WeightsTaToAu(s).value > 0.0
  {
  }

  lemma WeightsHgToRnWellFormed(s: string)
    ensures WeightsHgToRn(s).Some? ==> IsSymbol(s) && WeightsHgToRn(s).value > 0.0
  {
  }

  lemma WeightsFrToNpWellFormed(s: string)
    ensures WeightsFrToNp(s).Some? ==> IsSymbol(s) && WeightsFrToNp(s).value > 0.0
  {
  }

  lemma WeightsPuToFmWellFormed(s: string)
    ensures WeightsPuToFm(s).Some? ==> IsSymbol(s) && WeightsPuToFm(s).value > 0.0
  {
  }

  lemma WeightsMdToBhWellFormed(s: string)
    ensures WeightsMdToBh(s).Some? ==> IsSymbol(s) && WeightsMdToBh(s).value > 0.0
  {
  }

  lemma WeightsHsToFlWellFormed(s: string)
    ensures WeightsHsToFl(s).Some? ==> IsSymbol(s) && WeightsHsToFl(s).value > 0.0
  {
  }

  lemma WeightsMcToOgWellFormed(s: string)
    ensures WeightsMcToOg(s).Some? ==> IsSymbol(s) && WeightsMcToOg(s).value > 0.0
  {
  }
}
