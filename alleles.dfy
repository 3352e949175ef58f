/** The allele mapper (calculadora.py, get_alleles): a mode and a genotype
    label give the two alleles a parent carries. Alleles are the one-letter
    strings "R" (dominant) and "r" (recessive) of the source, here the
    characters 'R' and 'r'. */
module Alleles {
  import opened Text
  import opened Classifier

  datatype Option<T> = None | Some(value: T)

  /** The three unordered allele pairs, written with 'R' first, which is
      also the order in which the source's lists are written. */
  predicate IsAllelePair(a: seq<char>) {
    a == ['R', 'R'] || a == ['R', 'r'] || a == ['r', 'r']
  }

  /** The explicit rules of get_alleles, tried in the source's order; None
      when no rule matches the pair (mode, label). */
  function Rule(m: Mode, g: string): (r: Option<seq<char>>)
    ensures r.Some? ==> IsAllelePair(r.value)
    ensures m == Base ==> r == Some(['R', 'R'])
  {
    match m
    case Recessive =>
      if g == "Visual" then Some(['r', 'r'])
      else if g == "Het" then Some(['R', 'r'])
      else if g == "No porta" then Some(['R', 'R'])
      else if Contains(Lower(g), "het") then Some(['R', 'r'])
      else None
    case Dominant =>
      if g == "Visual" then Some(['R', 'r'])
      else if g == "No porta" then Some(['r', 'r'])
      else None
    case CoDominant =>
      if g == "Super" then Some(['R', 'R'])
      else if g == "Visual" then Some(['R', 'r'])
      else if g == "No porta" then Some(['r', 'r'])
      else None
    case Base => Some(['R', 'R'])
  }

  /** The pair the source returns when no rule matches. */
  const Fallback: seq<char> := ['R', 'r']

  /** get_alleles: the matching rule's pair, or the heterozygous fallback. */
  function GetAlleles(m: Mode, g: string): (a: seq<char>)
    ensures |a| == 2 && a[0] in "Rr" && a[1] in "Rr"
    ensures IsAllelePair(a)
    ensures Rule(m, g).Some? ==> a == Rule(m, g).value
    ensures Rule(m, g).None? ==> a == ['R', 'r']
  {
    match Rule(m, g)
    case Some(a) => a
    case None => Fallback
  }

  /** Every label the form offers for a mode is handled by an explicit rule,
      so the fallback is only reached through labels from another mode. */
  lemma OfferedLabelsHaveRule(m: Mode, g: string)
    requires g in Genotypes(m)
    ensures Rule(m, g).Some?
  {
    if m == Recessive && g in ["Pos Het", "66% Het", "50% Het"] {
      assert Lower(g)[|g| - 3..] == "het";
      assert OccursAt(Lower(g), "het", |g| - 3);
    }
  }

  /** The table of the source, row by row, for the labels it offers. */
  lemma AlleleTable()
    ensures GetAlleles(Recessive, "Visual") == ['r', 'r']
    ensures GetAlleles(Recessive, "Het") == ['R', 'r']
    ensures GetAlleles(Recessive, "No porta") == ['R', 'R']
    ensures GetAlleles(Dominant, "Visual") == ['R', 'r']
    ensures GetAlleles(Dominant, "No porta") == ['r', 'r']
    ensures GetAlleles(CoDominant, "Super") == ['R', 'R']
    ensures GetAlleles(CoDominant, "Visual") == ['R', 'r']
    ensures GetAlleles(CoDominant, "No porta") == ['r', 'r']
    ensures forall g :: GetAlleles(Base, g) == ['R', 'R']
  {
  }

  /** For a recessive trait every label that mentions "het", in any letter
      case ("Het", "Pos Het", "66% Het", "50% Het", "HET"), is a carrier. */
  lemma HetLabelsCarry(g: string)
    requires Contains(Lower(g), "het")
    ensures GetAlleles(Recessive, g) == ['R', 'r']
  {
    if g == "Visual" {
      assert Lower(g) == "visual";
      MissingChar(Lower(g), "het", 'h');
    } else if g == "No porta" {
      assert Lower(g) == "no porta";
      MissingChar(Lower(g), "het", 'h');
    }
  }

  /** Labels of the recessive form that reach a dominant or co-dominant
      trait have no rule there and fall back to a carrier pair. */
  lemma ForeignLabelsFallBack(g: string)
    requires g in ["Het", "Pos Het", "66% Het", "50% Het"]
    ensures Rule(Dominant, g).None? && GetAlleles(Dominant, g) == ['R', 'r']
    ensures Rule(CoDominant, g).None? && GetAlleles(CoDominant, g) == ['R', 'r']
  {
  }
}
