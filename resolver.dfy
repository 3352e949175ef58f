/** The single-trait resolver (calculadora.py, resultado_trait): the
    distribution of offspring phenotypes for one trait, from a 2x2 Punnett
    square over both parents' alleles. Probabilities are exact reals. */
module Resolver {
  import opened Classifier
  import opened Alleles

  /** The phenotype labels the resolver produces; the source spells them
      "Visual", "Het", "Super", "No porta" and "Wild". */
  datatype Phenotype = Visual | Het | Super | NoPorta | Wild

  /** A phenotype distribution: label to probability; absent labels have
      probability 0. */
  type Distribution = map<Phenotype, real>

  /** An offspring allele pair, sorted ('R' before 'r', as Python sorts
      one-letter strings). */
  type Pair = (char, char)

  /** tuple(sorted([i, j])) */
  function SortedPair(i: char, j: char): (p: Pair)
    ensures p.0 <= p.1
    ensures (p.0 == i && p.1 == j) || (p.0 == j && p.1 == i)
  {
    if i <= j then (i, j) else (j, i)
  }

  /** The sorted pairs of allele `i` of one parent with each allele of the other. */
  function Row(i: char, a2: seq<char>): (row: seq<Pair>)
    ensures |row| == |a2|
  {
    seq(|a2|, j requires 0 <= j < |a2| => SortedPair(i, a2[j]))
  }

  /** descendencia: the Punnett square, the first parent's allele varying slowest. */
  function Square(a1: seq<char>, a2: seq<char>): (sq: seq<Pair>)
  {
    if |a1| == 0 then [] else Row(a1[0], a2) + Square(a1[1..], a2)
  }

  /** For two parents with two alleles each, the square has the four cells
      of the textbook 2x2 Punnett square. */
  lemma {:induction false} SquareOfPairs(a1: seq<char>, a2: seq<char>)
    requires |a1| == 2 && |a2| == 2
    ensures Square(a1, a2) == [SortedPair(a1[0], a2[0]), SortedPair(a1[0], a2[1]),
                               SortedPair(a1[1], a2[0]), SortedPair(a1[1], a2[1])]
  {
    assert Square(a1[1..][1..], a2) == [];
  }

  /** par.count(c) */
  function Occurrences(p: Pair, c: char): (n: nat)
    ensures n <= 2
  {
    (if p.0 == c then 1 else 0) + (if p.1 == c then 1 else 0)
  }

  /** The phenotype of one offspring pair, by the mode's rule. */
  function PhenotypeOf(m: Mode, par: Pair): Phenotype
    requires m != Base
  {
    match m
    case Recessive =>
      if par == ('r', 'r') then Visual
      else if Occurrences(par, 'r') == 1 && Occurrences(par, 'R') == 1 then Het
      else NoPorta
    case CoDominant =>
      if par == ('R', 'R') then Super
      else if Occurrences(par, 'R') == 1 && Occurrences(par, 'r') == 1 then Visual
      else NoPorta
    case Dominant =>
      if par.0 == 'R' || par.1 == 'R' then Visual else NoPorta
  }

  /** On pairs over {'R', 'r'} the rules read as the textbook dosage rules:
      a recessive trait shows with no 'R', is carried with one; a
      co-dominant trait is super with two 'R' and visual with one; a
      dominant trait shows with at least one 'R'. */
  lemma PhenotypeByDose(m: Mode, par: Pair)
    requires m != Base && par.0 in "Rr" && par.1 in "Rr"
    ensures m == Recessive ==>
      && (PhenotypeOf(m, par) == Visual <==> Occurrences(par, 'R') == 0)
      && (PhenotypeOf(m, par) == Het <==> Occurrences(par, 'R') == 1)
      && (PhenotypeOf(m, par) == NoPorta <==> Occurrences(par, 'R') == 2)
    ensures m == CoDominant ==>
      && (PhenotypeOf(m, par) == Super <==> Occurrences(par, 'R') == 2)
      && (PhenotypeOf(m, par) == Visual <==> Occurrences(par, 'R') == 1)
      && (PhenotypeOf(m, par) == NoPorta <==> Occurrences(par, 'R') == 0)
    ensures m == Dominant ==>
      && (PhenotypeOf(m, par) == Visual <==> Occurrences(par, 'R') >= 1)
      && (PhenotypeOf(m, par) == NoPorta <==> Occurrences(par, 'R') == 0)
  {
  }

  /** The phenotypes of the cells of a square, in order. */
  function Classified(m: Mode, sq: seq<Pair>): (ps: seq<Phenotype>)
    requires m != Base
    ensures |ps| == |sq|
  {
    seq(|sq|, k requires 0 <= k < |sq| => PhenotypeOf(m, sq[k]))
  }

  /** The value of a defaultdict(float): 0 for an absent key. */
  function Lookup(d: Distribution, x: Phenotype): real {
    if x in d then d[x] else 0.0
  }

  /** Number of occurrences of `x` in `s`. */
  function Count(s: seq<Phenotype>, x: Phenotype): nat {
    if |s| == 0 then 0 else Count(s[..|s| - 1], x) + (if s[|s| - 1] == x then 1 else 0)
  }

  /** The counter after `res[label] += 1` for each label of `s` in turn. */
  function Tally(s: seq<Phenotype>): Distribution {
    if |s| == 0 then map[]
    else
      var t := Tally(s[..|s| - 1]);
      var x := s[|s| - 1];
      t[x := Lookup(t, x) + 1.0]
  }

  /** Every value divided by n. */
  function Normalize(t: Distribution, n: real): (d: Distribution)
    requires n != 0.0
    ensures d.Keys == t.Keys
  {
    map k | k in t :: t[k] / n
  }

  /** The labels of the square's cells, for parents with these alleles. */
  function Offspring(m: Mode, a1: seq<char>, a2: seq<char>): (s: seq<Phenotype>)
    requires m != Base && |a1| == 2 && |a2| == 2
    ensures |s| == 4
  {
    SquareOfPairs(a1, a2);
    Classified(m, Square(a1, a2))
  }

  /** The counted square divided by its number of cells. */
  function FromAlleles(m: Mode, a1: seq<char>, a2: seq<char>): Distribution
    requires m != Base && |a1| == 2 && |a2| == 2
  {
    Normalize(Tally(Offspring(m, a1, a2)), |Square(a1, a2)| as real)
  }

  /** The distribution resultado_trait returns, as a function of its inputs. */
  function TraitDistribution(m: Mode, g1: string, g2: string): Distribution {
    if m == Base then map[Wild := 1.0]
    else FromAlleles(m, GetAlleles(m, g1), GetAlleles(m, g2))
  }

  /** Sum of the probabilities of all labels. */
  function Total(d: Distribution): real {
    Lookup(d, Visual) + Lookup(d, Het) + Lookup(d, Super) + Lookup(d, NoPorta) + Lookup(d, Wild)
  }

  /** The labels each mode can produce. */
  function ModeLabels(m: Mode): set<Phenotype> {
    match m
    case Recessive => {Visual, Het, NoPorta}
    case CoDominant => {Super, Visual, NoPorta}
    case Dominant => {Visual, NoPorta}
    case Base => {Wild}
  }

  lemma TallySnoc(s: seq<Phenotype>, x: Phenotype)
    ensures Tally(s + [x]) == Tally(s)[x := Lookup(Tally(s), x) + 1.0]
  {
    assert (s + [x])[..|s|] == s;
  }

  /** The counter holds, for each label, how often it occurs, and holds
      only the labels that occur. */
  lemma {:induction false} TallyCounts(s: seq<Phenotype>)
    ensures forall x :: x in Tally(s) <==> Count(s, x) > 0
    ensures forall x :: Lookup(Tally(s), x) == Count(s, x) as real
  {
    if |s| > 0 {
      TallyCounts(s[..|s| - 1]);
    }
  }

  /** The counts of the five labels add up to the length. */
  lemma {:induction false} CountTotal(s: seq<Phenotype>)
    ensures Count(s, Visual) + Count(s, Het) + Count(s, Super) + Count(s, NoPorta) + Count(s, Wild) == |s|
  {
    if |s| > 0 {
      CountTotal(s[..|s| - 1]);
    }
  }

  lemma CountFour(s: seq<Phenotype>, x: Phenotype)
    requires |s| == 4
    ensures Count(s, x) == (if s[0] == x then 1 else 0) + (if s[1] == x then 1 else 0)
                         + (if s[2] == x then 1 else 0) + (if s[3] == x then 1 else 0)
  {
    var s3, s2, s1 := s[..3], s[..2], s[..1];
    assert s3[..2] == s2 && s2[..1] == s1 && s1[..0] == [];
    assert Count(s1, x) == (if s[0] == x then 1 else 0);
    assert Count(s2, x) == Count(s1, x) + (if s[1] == x then 1 else 0);
    assert Count(s3, x) == Count(s2, x) + (if s[2] == x then 1 else 0);
  }

  /** For a non-base mode, the probability of each label is the number of
      square cells showing it divided by four, and exactly the labels shown
      by some cell are keys. */
  lemma ByCounts(m: Mode, a1: seq<char>, a2: seq<char>)
    requires m != Base && |a1| == 2 && |a2| == 2
    ensures forall x :: x in FromAlleles(m, a1, a2) <==> x in Offspring(m, a1, a2)
    ensures forall x :: Lookup(FromAlleles(m, a1, a2), x) == Count(Offspring(m, a1, a2), x) as real / 4.0
  {
    SquareOfPairs(a1, a2);
    var s := Offspring(m, a1, a2);
    TallyCounts(s);
    forall x ensures x in FromAlleles(m, a1, a2) <==> x in s {
      CountFour(s, x);
    }
  }

  /** The laws of one resolved trait, for parents with any two alleles. */
  lemma AlleleLaws(m: Mode, a1: seq<char>, a2: seq<char>)
    requires m != Base && |a1| == 2 && |a2| == 2
    ensures Total(FromAlleles(m, a1, a2)) == 1.0
    ensures forall x :: x in FromAlleles(m, a1, a2) ==> FromAlleles(m, a1, a2)[x] in {0.25, 0.5, 0.75, 1.0}
    ensures FromAlleles(m, a1, a2).Keys <= ModeLabels(m)
  {
    ByCounts(m, a1, a2);
    SharesSumToOne(m, a1, a2);
    forall x | x in FromAlleles(m, a1, a2) ensures FromAlleles(m, a1, a2)[x] in {0.25, 0.5, 0.75, 1.0} {
      ShareIsQuarter(m, a1, a2, x);
    }
    forall x | x in FromAlleles(m, a1, a2) ensures x in ModeLabels(m) {
      var s := Offspring(m, a1, a2);
      var k :| 0 <= k < |s| && s[k] == x;
    }
  }

  lemma SharesSumToOne(m: Mode, a1: seq<char>, a2: seq<char>)
    requires m != Base && |a1| == 2 && |a2| == 2
    ensures Total(FromAlleles(m, a1, a2)) == 1.0
  {
    ByCounts(m, a1, a2);
    CountTotal(Offspring(m, a1, a2));
  }

  lemma ShareIsQuarter(m: Mode, a1: seq<char>, a2: seq<char>, x: Phenotype)
    requires m != Base && |a1| == 2 && |a2| == 2 && x in FromAlleles(m, a1, a2)
    ensures FromAlleles(m, a1, a2)[x] in {0.25, 0.5, 0.75, 1.0}
  {
    var s := Offspring(m, a1, a2);
    ByCounts(m, a1, a2);
    assert Lookup(FromAlleles(m, a1, a2), x) == FromAlleles(m, a1, a2)[x];
    CountFour(s, x);
    assert 1 <= Count(s, x) <= 4;
  }

  /** resultado_trait's promises: the probabilities of one trait are
      positive quarters summing to 1, only the mode's own labels occur, and
      a base trait is Wild with certainty whatever the labels (including the
      "No porta" default). */
  lemma DistributionLaws(m: Mode, g1: string, g2: string)
    ensures Total(TraitDistribution(m, g1, g2)) == 1.0
    ensures forall x :: x in TraitDistribution(m, g1, g2) ==>
      TraitDistribution(m, g1, g2)[x] in {0.25, 0.5, 0.75, 1.0}
    ensures TraitDistribution(m, g1, g2).Keys <= ModeLabels(m)
    ensures m == Base ==> TraitDistribution(m, g1, g2) == map[Wild := 1.0]
  {
    if m != Base {
      AlleleLaws(m, GetAlleles(m, g1), GetAlleles(m, g2));
    }
  }

  /** Swapping the parents' alleles gives the same distribution: each cell
      of the square is a sorted pair. */
  lemma SymmetricAlleles(m: Mode, a1: seq<char>, a2: seq<char>)
    requires m != Base && |a1| == 2 && |a2| == 2
    ensures FromAlleles(m, a1, a2) == FromAlleles(m, a2, a1)
  {
    SquareOfPairs(a1, a2);
    SquareOfPairs(a2, a1);
    var s := Offspring(m, a1, a2);
    var t := Offspring(m, a2, a1);
    assert s[1] == t[2] && s[2] == t[1] && s[0] == t[0] && s[3] == t[3];
    forall x ensures Count(s, x) == Count(t, x) {
      CountFour(s, x);
      CountFour(t, x);
    }
    TallyCounts(s);
    TallyCounts(t);
    assert Tally(s) == Tally(t);
  }

  /** Swapping the parents' genotype labels gives the same distribution. */
  lemma Symmetric(m: Mode, g1: string, g2: string)
    ensures TraitDistribution(m, g1, g2) == TraitDistribution(m, g2, g1)
  {
    if m != Base {
      SymmetricAlleles(m, GetAlleles(m, g1), GetAlleles(m, g2));
    }
  }

  /** Probability that a parent with alleles `a` passes on allele `c`: each of
      its two alleles goes to the offspring with probability 1/2. */
  function Transmit(a: seq<char>, c: char): real
    requires |a| == 2
  {
    ((if a[0] == c then 1.0 else 0.0) + (if a[1] == c then 1.0 else 0.0)) / 2.0
  }

  /** Mendel's law as a reference: the parents transmit independently, so
      an offspring is RR, Rr or rr with the product probabilities, and the
      mode says which of these show which label. */
  function MendelProb(m: Mode, a1: seq<char>, a2: seq<char>, x: Phenotype): real
    requires m != Base && |a1| == 2 && |a2| == 2
  {
    var homDom := Transmit(a1, 'R') * Transmit(a2, 'R');
    var homRec := Transmit(a1, 'r') * Transmit(a2, 'r');
    var hetero := Transmit(a1, 'R') * Transmit(a2, 'r') + Transmit(a1, 'r') * Transmit(a2, 'R');
    match m
    case Recessive =>
      if x == Visual then homRec else if x == Het then hetero else if x == NoPorta then homDom else 0.0
    case CoDominant =>
      if x == Super then homDom else if x == Visual then hetero else if x == NoPorta then homRec else 0.0
    case Dominant =>
      if x == Visual then homDom + hetero else if x == NoPorta then homRec else 0.0
  }

  /** The counted square agrees with Mendel's law for every label, for
      parents with any pair of alleles over {'R', 'r'}. */
  lemma MendelianAlleles(m: Mode, a1: seq<char>, a2: seq<char>, x: Phenotype)
    requires m != Base && IsAllelePair(a1) && IsAllelePair(a2)
    ensures Lookup(FromAlleles(m, a1, a2), x) == MendelProb(m, a1, a2, x)
  {
    ShareOfCells(m, a1, a2, x);
    if a1 == ['R', 'R'] {
      MendelFromHomDom(m, a2, x);
    } else if a1 == ['R', 'r'] {
      MendelFromHetero(m, a2, x);
    } else {
      MendelFromHomRec(m, a2, x);
    }
  }

  /** The probability of a label is its share of the four cells. */
  lemma ShareOfCells(m: Mode, a1: seq<char>, a2: seq<char>, x: Phenotype)
    requires m != Base && |a1| == 2 && |a2| == 2
    ensures Lookup(FromAlleles(m, a1, a2), x) == CellShare(m, a1, a2, x)
  {
    ByCounts(m, a1, a2);
    SquareOfPairs(a1, a2);
    CountFour(Offspring(m, a1, a2), x);
  }

  /** The cell count of the square against Mendel's law, first parent RR. */
  lemma MendelFromHomDom(m: Mode, a2: seq<char>, x: Phenotype)
    requires m != Base && IsAllelePair(a2)
    ensures CellShare(m, ['R', 'R'], a2, x) == MendelProb(m, ['R', 'R'], a2, x)
  {
  }

  /** The same, first parent Rr. */
  lemma MendelFromHetero(m: Mode, a2: seq<char>, x: Phenotype)
    requires m != Base && IsAllelePair(a2)
    ensures CellShare(m, ['R', 'r'], a2, x) == MendelProb(m, ['R', 'r'], a2, x)
  {
  }

  /** The same, first parent rr. */
  lemma MendelFromHomRec(m: Mode, a2: seq<char>, x: Phenotype)
    requires m != Base && IsAllelePair(a2)
    ensures CellShare(m, ['r', 'r'], a2, x) == MendelProb(m, ['r', 'r'], a2, x)
  {
  }

  /** The share of the four textbook cells that show `x`. */
  function CellShare(m: Mode, a1: seq<char>, a2: seq<char>, x: Phenotype): real
    requires m != Base && |a1| == 2 && |a2| == 2
  {
    ((if PhenotypeOf(m, SortedPair(a1[0], a2[0])) == x then 1 else 0)
     + (if PhenotypeOf(m, SortedPair(a1[0], a2[1])) == x then 1 else 0)
     + (if PhenotypeOf(m, SortedPair(a1[1], a2[0])) == x then 1 else 0)
     + (if PhenotypeOf(m, SortedPair(a1[1], a2[1])) == x then 1 else 0)) as real / 4.0
  }

  /** The same law for genotype labels, offered or not. */
  lemma MendelianLaw(m: Mode, g1: string, g2: string, x: Phenotype)
    requires m != Base
    ensures Lookup(TraitDistribution(m, g1, g2), x) == MendelProb(m, GetAlleles(m, g1), GetAlleles(m, g2), x)
  {
    MendelianAlleles(m, GetAlleles(m, g1), GetAlleles(m, g2), x);
  }

  /** A distribution whose every label has the reference probability. */
  lemma FromMendel(m: Mode, g1: string, g2: string, e: Distribution)
    requires m != Base
    requires forall x :: x in e ==> e[x] > 0.0
    requires forall x :: Lookup(e, x) == MendelProb(m, GetAlleles(m, g1), GetAlleles(m, g2), x)
    ensures TraitDistribution(m, g1, g2) == e
  {
    var d := TraitDistribution(m, g1, g2);
    DistributionLaws(m, g1, g2);
    forall x ensures Lookup(d, x) == Lookup(e, x) {
      MendelianLaw(m, g1, g2, x);
    }
    forall x ensures x in d <==> x in e {
      assert Lookup(d, x) == Lookup(e, x);
    }
  }

  // The crosses the source was written for.

  lemma HetTimesHet()
    ensures TraitDistribution(Recessive, "Het", "Het") == map[Visual := 0.25, Het := 0.5, NoPorta := 0.25]
  {
    FromMendel(Recessive, "Het", "Het", map[Visual := 0.25, Het := 0.5, NoPorta := 0.25]);
  }

  lemma HetTimesVisual()
    ensures TraitDistribution(Recessive, "Het", "Visual") == map[Visual := 0.5, Het := 0.5]
  {
    FromMendel(Recessive, "Het", "Visual", map[Visual := 0.5, Het := 0.5]);
  }

  lemma HetTimesNoPorta()
    ensures TraitDistribution(Recessive, "Het", "No porta") == map[Het := 0.5, NoPorta := 0.5]
  {
    FromMendel(Recessive, "Het", "No porta", map[Het := 0.5, NoPorta := 0.5]);
  }

  lemma VisualTimesVisual()
    ensures TraitDistribution(Recessive, "Visual", "Visual") == map[Visual := 1.0]
  {
    FromMendel(Recessive, "Visual", "Visual", map[Visual := 1.0]);
  }

  lemma DominantVisualTimesNoPorta()
    ensures TraitDistribution(Dominant, "Visual", "No porta") == map[Visual := 0.5, NoPorta := 0.5]
  {
    FromMendel(Dominant, "Visual", "No porta", map[Visual := 0.5, NoPorta := 0.5]);
  }

  lemma SuperTimesVisual()
    ensures TraitDistribution(CoDominant, "Super", "Visual") == map[Super := 0.5, Visual := 0.5]
  {
    FromMendel(CoDominant, "Super", "Visual", map[Super := 0.5, Visual := 0.5]);
  }

  lemma CoDominantVisualTimesVisual()
    ensures TraitDistribution(CoDominant, "Visual", "Visual") == map[Super := 0.25, Visual := 0.5, NoPorta := 0.25]
  {
    FromMendel(CoDominant, "Visual", "Visual", map[Super := 0.25, Visual := 0.5, NoPorta := 0.25]);
  }

  /** One step of the counting loop. */
  lemma CountStep(m: Mode, sq: seq<Pair>, i: nat)
    requires m != Base && i < |sq|
    ensures Tally(Classified(m, sq[..i + 1]))
            == Tally(Classified(m, sq[..i]))[PhenotypeOf(m, sq[i]) :=
                 Lookup(Tally(Classified(m, sq[..i])), PhenotypeOf(m, sq[i])) + 1.0]
  {
    assert Classified(m, sq[..i + 1]) == Classified(m, sq[..i]) + [PhenotypeOf(m, sq[i])];
    TallySnoc(Classified(m, sq[..i]), PhenotypeOf(m, sq[i]));
  }

  /** resultado_trait: the base case, then the counted and normalised
      square of the parents' alleles. */
  method ResolveTrait(name: string, m: Mode, genoP: string, genoM: string) returns (res: Distribution)
    ensures res == TraitDistribution(m, genoP, genoM)
    ensures Total(res) == 1.0
    ensures forall x :: x in res ==> 0.0 < res[x] <= 1.0
  {
    if m == Base {
      res := map[Wild := 1.0];
    } else {
      var a1 := GetAlleles(m, genoP);
      var a2 := GetAlleles(m, genoM);
      res := SquareDistribution(m, a1, a2);
    }
    DistributionLaws(m, genoP, genoM);
  }

  /** The body of resultado_trait past the base case: fill a counter over
      the Punnett square, then divide every count by the number of cells. */
  method SquareDistribution(m: Mode, a1: seq<char>, a2: seq<char>) returns (res: Distribution)
    requires m != Base && |a1| == 2 && |a2| == 2
    ensures res == FromAlleles(m, a1, a2)
  {
    var descendencia := Square(a1, a2);
    var n := |descendencia|;
    SquareOfPairs(a1, a2);
    res := map[];
    for i := 0 to n
      invariant res == Tally(Classified(m, descendencia[..i]))
    {
      var ph := PhenotypeOf(m, descendencia[i]);
      CountStep(m, descendencia, i);
      res := res[ph := Lookup(res, ph) + 1.0];
    }
    assert descendencia[..n] == descendencia;
    ghost var counts := res;
    var pending := res.Keys;
    while pending != {}
      invariant pending <= res.Keys == counts.Keys
      invariant forall k :: k in res ==> res[k] == if k in pending then counts[k] else counts[k] / n as real
      decreases pending
    {
      var k :| k in pending;
      res := res[k := res[k] / n as real];
      pending := pending - {k};
    }
    assert res == Normalize(counts, n as real);
  }
}
