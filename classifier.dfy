/** The trait classifier: the inheritance mode of a trait is read off its
    name by ordered keyword rules (calculadora.py, infer_tipo), and the
    genotype labels a breeder may pick depend on that mode (GENOTIPOS). */
module Classifier {
  import opened Text

  /** The four modes; the source spells them "base", "recesivo",
      "dominante" and "co-dominante". */
  datatype Mode = Base | Recessive | Dominant | CoDominant

  /** Names that denote the wild type, compared after lower-casing. */
  const BaseNames: seq<string> := ["wild", "wild type", "normal"]

  /** Substrings that make a trait recessive, in the order the source tests
      them; the fourth is the literal token the source writes. */
  const RecessiveKeywords: seq<string> :=
    ["het", "patternless", "albino", "ecl...pher", "rainwater", "tremper", "bell"]

  /** The substring that makes a (non-recessive) trait co-dominant. */
  const CoDominantKeyword: string := "super"

  /** infer_tipo: the first rule that matches the lower-cased name wins. */
  function InferMode(name: string): Mode {
    var t := Lower(name);
    if t in ["wild", "wild type", "normal"] then Base
    else if Contains(t, "het") || Contains(t, "patternless") || Contains(t, "albino")
         || Contains(t, "ecl...pher") || Contains(t, "rainwater") || Contains(t, "tremper")
         || Contains(t, "bell") then Recessive
    else if Contains(t, "super") then CoDominant
    else Dominant
  }

  /** The lower-cased name contains one of the recessive keywords. */
  predicate HasRecessiveKeyword(t: string) {
    exists k :: k in RecessiveKeywords && Contains(t, k)
  }

  /** GENOTIPOS: the genotype labels offered for each mode. */
  function Genotypes(m: Mode): seq<string> {
    match m
    case Recessive => ["Visual", "Het", "Pos Het", "66% Het", "50% Het", "No porta"]
    case Dominant => ["Visual", "No porta"]
    case CoDominant => ["Super", "Visual", "No porta"]
    case Base => ["Visual"]
  }

  /** The keyword list states the same test as the chain of substring
      checks in InferMode. */
  lemma KeywordsAsChain(t: string)
    ensures HasRecessiveKeyword(t)
            <==> Contains(t, "het") || Contains(t, "patternless") || Contains(t, "albino")
                 || Contains(t, "ecl...pher") || Contains(t, "rainwater") || Contains(t, "tremper")
                 || Contains(t, "bell")
  {
    if Contains(t, "het") { assert RecessiveKeywords[0] == "het"; }
    if Contains(t, "patternless") { assert RecessiveKeywords[1] == "patternless"; }
    if Contains(t, "albino") { assert RecessiveKeywords[2] == "albino"; }
    if Contains(t, "ecl...pher") { assert RecessiveKeywords[3] == "ecl...pher"; }
    if Contains(t, "rainwater") { assert RecessiveKeywords[4] == "rainwater"; }
    if Contains(t, "tremper") { assert RecessiveKeywords[5] == "tremper"; }
    if Contains(t, "bell") { assert RecessiveKeywords[6] == "bell"; }
  }

  /** None of the keywords occurs in `t`. */
  predicate KeywordFree(t: string) {
    && !Contains(t, "het") && !Contains(t, "patternless") && !Contains(t, "albino")
    && !Contains(t, "ecl...pher") && !Contains(t, "rainwater") && !Contains(t, "tremper")
    && !Contains(t, "bell") && !Contains(t, CoDominantKeyword)
  }

  /** Every keyword has an 'h', an 'r' or a 'b'. */
  lemma LacksHRB(t: string)
    requires 'h' !in t && 'r' !in t && 'b' !in t
    ensures KeywordFree(t)
  {
    MissingChar(t, "het", 'h');
    MissingChar(t, "patternless", 'r');
    MissingChar(t, "albino", 'b');
    MissingChar(t, "ecl...pher", 'h');
    MissingChar(t, "rainwater", 'r');
    MissingChar(t, "tremper", 'r');
    MissingChar(t, "bell", 'b');
    MissingChar(t, "super", 'r');
  }

  /** Every keyword has an 'h', a 'b' or an 'e'. */
  lemma LacksHBE(t: string)
    requires 'h' !in t && 'b' !in t && 'e' !in t
    ensures KeywordFree(t)
  {
    MissingChar(t, "het", 'h');
    MissingChar(t, "patternless", 'e');
    MissingChar(t, "albino", 'b');
    MissingChar(t, "ecl...pher", 'h');
    MissingChar(t, "rainwater", 'e');
    MissingChar(t, "tremper", 'e');
    MissingChar(t, "bell", 'b');
    MissingChar(t, "super", 'e');
  }

  /** Every recessive keyword has an 'h', a 'b' or a 't'. */
  lemma LacksHBT(t: string)
    requires 'h' !in t && 'b' !in t && 't' !in t
    ensures !HasRecessiveKeyword(t)
  {
    MissingChar(t, "het", 'h');
    MissingChar(t, "patternless", 't');
    MissingChar(t, "albino", 'b');
    MissingChar(t, "ecl...pher", 'h');
    MissingChar(t, "rainwater", 't');
    MissingChar(t, "tremper", 't');
    MissingChar(t, "bell", 'b');
    KeywordsAsChain(t);
  }

  lemma WildIsKeywordFree()
    ensures KeywordFree("wild")
  {
    LacksHRB("wild");
  }

  lemma WildTypeIsKeywordFree()
    ensures KeywordFree("wild type")
  {
    LacksHRB("wild type");
  }

  lemma NormalIsKeywordFree()
    ensures KeywordFree("normal")
  {
    LacksHBE("normal");
  }

  /** No base name contains a recessive keyword or the co-dominant keyword, so
      the base rule never hides a keyword match. */
  lemma BaseNamesHaveNoKeyword(t: string)
    requires t in BaseNames
    ensures !HasRecessiveKeyword(t) && !Contains(t, CoDominantKeyword)
  {
    if t == "wild" {
      WildIsKeywordFree();
    } else if t == "wild type" {
      WildTypeIsKeywordFree();
    } else {
      NormalIsKeywordFree();
    }
    KeywordsAsChain(t);
  }

  /** The four outcomes of the classifier, each stated on its own and both
      ways: exactly the base names are base; a recessive keyword wins even
      over "super"; "super" without a recessive keyword is co-dominant;
      everything else is dominant. */
  lemma ModeCharacterization(name: string)
    ensures InferMode(name) == Base <==> Lower(name) in BaseNames
    ensures InferMode(name) == Recessive <==> HasRecessiveKeyword(Lower(name))
    ensures InferMode(name) == CoDominant
            <==> !HasRecessiveKeyword(Lower(name)) && Contains(Lower(name), CoDominantKeyword)
    ensures InferMode(name) == Dominant
            <==> Lower(name) !in BaseNames && !HasRecessiveKeyword(Lower(name))
                 && !Contains(Lower(name), CoDominantKeyword)
  {
    var t := Lower(name);
    KeywordsAsChain(t);
    if t in BaseNames {
      BaseNamesHaveNoKeyword(t);
    }
  }

  /** Classification ignores letter case: two names that agree once
      lower-cased get the same mode. */
  lemma CaseInsensitive(a: string, b: string)
    requires Lower(a) == Lower(b)
    ensures InferMode(a) == InferMode(b)
    ensures InferMode(Lower(a)) == InferMode(a)
  {
    LowerIdempotent(a);
  }

  /** Adding words around a recessive name keeps it recessive. */
  lemma RecessiveStable(a: string, name: string, b: string)
    requires InferMode(name) == Recessive
    ensures InferMode(a + name + b) == Recessive
  {
    ModeCharacterization(name);
    ModeCharacterization(a + name + b);
    var k :| k in RecessiveKeywords && Contains(Lower(name), k);
    LowerConcat(a, name);
    LowerConcat(a + name, b);
    ContainsInside(Lower(a), Lower(name), Lower(b), k);
  }

  /** Adding words around a co-dominant name can make it recessive (when a
      recessive keyword appears) but never base or dominant. */
  lemma CoDominantStable(a: string, name: string, b: string)
    requires InferMode(name) == CoDominant
    ensures InferMode(a + name + b) in {CoDominant, Recessive}
  {
    ModeCharacterization(name);
    ModeCharacterization(a + name + b);
    LowerConcat(a, name);
    LowerConcat(a + name, b);
    ContainsInside(Lower(a), Lower(name), Lower(b), CoDominantKeyword);
    if Lower(a + name + b) in BaseNames {
      BaseNamesHaveNoKeyword(Lower(a + name + b));
    }
  }

  // Named examples of the rule order: exact base names in any case, a
  // recessive keyword beating "super", and "wildtype" (no space), which is
  // not a base name and falls through to dominant.

  lemma WildTypeIsBase(name: string)
    requires name == "Wild Type"
    ensures InferMode(name) == Base
  {
    assert Lower(name) == "wild type";
  }

  lemma UpperCaseNormalIsBase(name: string)
    requires name == "NORMAL"
    ensures InferMode(name) == Base
  {
    assert Lower(name) == "normal";
  }

  lemma BellAlbinoIsRecessive(name: string)
    requires name == "Bell Albino"
    ensures InferMode(name) == Recessive
  {
    assert Lower(name) == "bell albino";
    assert OccursAt("bell albino", "bell", 0);
  }

  lemma SuperHetIsRecessive(name: string)
    requires name == "Super Het"
    ensures InferMode(name) == Recessive
  {
    assert Lower(name) == "super het";
    assert OccursAt("super het", "het", 6);
  }

  lemma SuperSnowIsCoDominant(name: string)
    requires name == "Super Snow"
    ensures InferMode(name) == CoDominant
  {
    assert Lower(name) == "super snow";
    assert OccursAt("super snow", "super", 0);
    SuperSnowHasNoRecessiveKeyword();
    KeywordsAsChain("super snow");
  }

  lemma MackSnowIsDominant(name: string)
    requires name == "Mack Snow"
    ensures InferMode(name) == Dominant
  {
    assert Lower(name) == "mack snow";
    MackSnowIsKeywordFree();
  }

  lemma WildtypeIsDominant(name: string)
    requires name == "Wildtype"
    ensures InferMode(name) == Dominant
  {
    assert Lower(name) == "wildtype";
    WildtypeIsKeywordFree();
  }

  lemma SuperSnowHasNoRecessiveKeyword()
    ensures !HasRecessiveKeyword("super snow")
  {
    LacksHBT("super snow");
  }

  lemma MackSnowIsKeywordFree()
    ensures KeywordFree("mack snow")
  {
    LacksHBE("mack snow");
  }

  lemma WildtypeIsKeywordFree()
    ensures KeywordFree("wildtype")
  {
    LacksHRB("wildtype");
  }
}
