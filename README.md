# Mendelian cross calculator for leopard geckos

This project models the genetics engine of `calculadora.py`. That is a
calculator for leopard-gecko breeders. Each parent has a set of traits
(morphs), and each trait carries a genotype label such as "Visual", "Het",
"Super" or "No porta". The engine works in four steps:

- It infers each trait's inheritance mode from its name (`infer_tipo`).
- It maps each label to a pair of alleles (`get_alleles`).
- It resolves each trait on its own with a 2x2 Punnett square
  (`resultado_trait`).
- It combines the traits by a cartesian product into offspring outcomes,
  each outcome being a set of display tags with a probability
  (`cross_dicts`, `calculate_full_cross`).

Modules:

- `Text` (text.dfy): lower-casing and substring tests on strings.
- `Classifier` (classifier.dfy): the mode classifier and the genotype labels
  offered per mode.
- `Alleles` (alleles.dfy): the allele mapper.
- `Resolver` (resolver.dfy): the single-trait resolver.
- `Order` (order.dfy): Python's string order and `sorted` of a set.
- `Cross` (cross.dfy): the product, the merging of outcomes, and the full
  cross.

The two loops of `resultado_trait` are modelled as methods. So are the two
nested loops of `cross_dicts` and the loop of `calculate_full_cross`. Each
method is proved equal to a specification function. The properties are
proved as lemmas about those functions:

- Each trait's distribution sums to 1.
- Each trait's distribution agrees with Mendel's law of independent
  transmission.
- The resolver is symmetric in the two parents.
- The classifier keeps its rule order and ignores letter case.
- The outcomes of a full cross sum to 1.
- Every outcome shows at most one tag per trait.

## Model

| member | source | states |
|---|---|---|
| Text.LowerChar | calculadora.py:23 | ASCII capitals move down by 32 code points; every other character is unchanged; the result is never a capital |
| Text.Lower | calculadora.py:23 | lower-casing keeps the length and lowers each character in place |
| Text.LowerIdempotent | calculadora.py:23 | lower-casing twice is lower-casing once |
| Text.LowerConcat | calculadora.py:23 | lower-casing distributes over concatenation |
| Text.MissingChar | calculadora.py:26 | a substring with a character the text lacks does not occur in it |
| Text.ContainsInside | calculadora.py:26 | a substring of `s` stays a substring when text is added on both sides of `s` |
| Classifier.KeywordsAsChain | calculadora.py:26 | the seven recessive keywords, as a list, are exactly the chain of `in` tests |
| Classifier.BaseNamesHaveNoKeyword | calculadora.py:24-29 | no base name contains a recessive keyword or "super", so placing the base rule first hides no keyword match |
| Classifier.ModeCharacterization | calculadora.py:22-31 | each of the four modes, both ways: base iff the lower-cased name is a base name; recessive iff it has a recessive keyword; co-dominant iff it has "super" and no recessive keyword; dominant otherwise |
| Classifier.CaseInsensitive | calculadora.py:23 | letter case never changes the inferred mode |
| Classifier.RecessiveStable | calculadora.py:26-27 | a recessive name stays recessive with words added around it |
| Classifier.CoDominantStable | calculadora.py:26-29 | a co-dominant name with words added is co-dominant or recessive, never base or dominant |
| Classifier.WildTypeIsBase | calculadora.py:24-25 | "Wild Type" is base |
| Classifier.UpperCaseNormalIsBase | calculadora.py:23-25 | "NORMAL" is base |
| Classifier.BellAlbinoIsRecessive | calculadora.py:26-27 | "Bell Albino" is recessive |
| Classifier.SuperHetIsRecessive | calculadora.py:26-29 | "Super Het" is recessive, because the recessive rule comes before "super" |
| Classifier.SuperSnowIsCoDominant | calculadora.py:28-29 | "Super Snow" is co-dominant |
| Classifier.MackSnowIsDominant | calculadora.py:30-31 | "Mack Snow" is dominant |
| Classifier.WildtypeIsDominant | calculadora.py:24-31 | "Wildtype" (no space) is not a base name and falls through to dominant |
| Alleles.Rule | calculadora.py:65-79 | every explicit rule yields one of the pairs RR, Rr, rr; the base mode always yields RR |
| Alleles.GetAlleles | calculadora.py:65-80 | the result is always a pair over {R, r}: the matching rule's pair, or Rr when no rule matches |
| Alleles.OfferedLabelsHaveRule | calculadora.py:33-38 | every label offered for a mode has an explicit rule, so only labels from another mode reach the fallback |
| Alleles.AlleleTable | calculadora.py:66-79 | the allele pair of each offered (mode, label), row by row |
| Alleles.HetLabelsCarry | calculadora.py:66-70 | for a recessive trait, any label containing "het" in any letter case maps to Rr |
| Alleles.ForeignLabelsFallBack | calculadora.py:71-80 | "Het"-style labels have no dominant or co-dominant rule and fall back to Rr |
| Resolver.SortedPair | calculadora.py:90 | the pair is ordered, and it holds the same two alleles |
| Resolver.Row | calculadora.py:90 | one cell per allele of the other parent |
| Resolver.SquareOfPairs | calculadora.py:90-91 | the square is the four cells of the 2x2 Punnett square, first parent slowest |
| Resolver.Occurrences | calculadora.py:98 | a pair holds an allele at most twice |
| Resolver.PhenotypeByDose | calculadora.py:94-117 | each mode's branch, on pairs over {R, r}, is the dosage rule: the label by the number of R alleles, both ways |
| Resolver.Classified | calculadora.py:94-117 | one phenotype per cell of the square |
| Resolver.Normalize | calculadora.py:119-121 | normalisation keeps the set of labels |
| Resolver.Offspring | calculadora.py:90-91 | the square has four cells (`n == 4`) |
| Resolver.TallySnoc | calculadora.py:92-117 | one more cell adds 1 to its label and leaves the other labels unchanged |
| Resolver.TallyCounts | calculadora.py:92-117 | the tally has a label iff some cell shows it, and holds the number of cells that show it |
| Resolver.CountTotal | calculadora.py:94-117 | every cell is counted under exactly one label |
| Resolver.CountFour | calculadora.py:94-117 | the count over four cells is the sum of the cells' indicators |
| Resolver.CountStep | calculadora.py:95-117 | one pass of a counting loop counts one more cell |
| Resolver.ByCounts | calculadora.py:88-121 | a label is present iff some cell shows it, with probability (cells showing it)/4 |
| Resolver.SharesSumToOne | calculadora.py:119-121 | the normalised shares sum to 1 |
| Resolver.ShareIsQuarter | calculadora.py:119-121 | each share is 1/4, 1/2, 3/4 or 1 |
| Resolver.AlleleLaws | calculadora.py:88-121 | for any two allele pairs: the shares sum to 1, each is a multiple of 1/4, and only the mode's own labels appear |
| Resolver.DistributionLaws | calculadora.py:82-122 | for any labels: the distribution sums to 1, its values are quarters, it uses only the mode's labels, and a base trait gives Wild with certainty |
| Resolver.SymmetricAlleles | calculadora.py:88-90 | swapping the parents' allele pairs leaves the distribution unchanged |
| Resolver.Symmetric | calculadora.py:82-122 | swapping father and mother leaves each trait's distribution unchanged |
| Resolver.ShareOfCells | calculadora.py:88-121 | a label's probability is the sum of its four cells' shares |
| Resolver.MendelFromHomDom | calculadora.py:88-121 | when the first parent is RR, the square agrees with Mendel's law |
| Resolver.MendelFromHetero | calculadora.py:88-121 | when the first parent is Rr, the square agrees with Mendel's law |
| Resolver.MendelFromHomRec | calculadora.py:88-121 | when the first parent is rr, the square agrees with Mendel's law |
| Resolver.MendelianAlleles | calculadora.py:88-121 | for all allele pairs and labels, the counted square equals the independent-transmission law `MendelProb` |
| Resolver.MendelianLaw | calculadora.py:82-122 | each trait's distribution, from any labels, is `MendelProb` of the mapped alleles |
| Resolver.FromMendel | calculadora.py:82-122 | a distribution with positive entries that matches Mendel's law is the resolver's result, so Mendel's law fixes the result |
| Resolver.HetTimesHet | calculadora.py:94-121 | Het x Het (recessive) gives 1/4 Visual, 1/2 Het, 1/4 No porta |
| Resolver.HetTimesVisual | calculadora.py:94-121 | Het x Visual (recessive) gives 1/2 Visual, 1/2 Het |
| Resolver.HetTimesNoPorta | calculadora.py:94-121 | Het x No porta (recessive) gives 1/2 Het, 1/2 No porta |
| Resolver.VisualTimesVisual | calculadora.py:94-121 | Visual x Visual (recessive) gives Visual with certainty |
| Resolver.DominantVisualTimesNoPorta | calculadora.py:112-121 | Visual x No porta (dominant) gives 1/2 Visual, 1/2 No porta |
| Resolver.SuperTimesVisual | calculadora.py:103-121 | Super x Visual (co-dominant) gives 1/2 Super, 1/2 Visual |
| Resolver.CoDominantVisualTimesVisual | calculadora.py:103-121 | Visual x Visual (co-dominant) gives 1/4 Super, 1/2 Visual, 1/4 No porta |
| Resolver.ResolveTrait | calculadora.py:82-122 | the method returns the trait's distribution; it sums to 1, and every entry lies in (0, 1] |
| Resolver.SquareDistribution | calculadora.py:88-121 | the counting loop and the normalising loop compute the normalised tally of the square |
| Order.BelowIrreflexive | calculadora.py:125 | no string is below itself |
| Order.BelowTransitive | calculadora.py:125 | the string order is transitive |
| Order.BelowTotal | calculadora.py:125 | of any two distinct strings, one is below the other |
| Order.LeastExists | calculadora.py:151 | a non-empty set has a least element |
| Order.LeastUnique | calculadora.py:151 | the least element is unique |
| Order.Least | calculadora.py:151 | the result is the least element of the set |
| Order.SortKeys | calculadora.py:125 | `sorted` of a set lists exactly its elements, once each |
| Order.SortKeysAscending | calculadora.py:125 | the listing is strictly increasing |
| Order.AscendingDistinct | calculadora.py:125 | an increasing listing repeats no element |
| Order.AscendingHead | calculadora.py:151 | an increasing listing starts with the least element, and its tail lists the rest |
| Order.SortedIsUnique | calculadora.py:151 | every increasing listing of a set is `sorted` of it, so the order in which trait names were gathered cannot change the result |
| Cross.TagOf | calculadora.py:133-144 | a tag is the wild-type badge iff the phenotype is Wild; every other tag names its trait |
| Cross.TagOfInjective | calculadora.py:133-144 | a tag determines its phenotype, and its trait unless it is the wild-type badge |
| Cross.Entry | calculadora.py:158 | one entry for a present label, none for an absent one |
| Cross.Items | calculadora.py:158 | the entries are exactly the (label, probability) pairs of the dictionary |
| Cross.PoolSumConcat | calculadora.py:158 | the sum over two joined lists is the sum of their sums |
| Cross.EntrySum | calculadora.py:158 | an entry carries its label's probability |
| Cross.ItemsSum | calculadora.py:158 | the entry list carries the dictionary's whole probability |
| Cross.Cons | calculadora.py:128 | putting an entry in front keeps the number of tuples |
| Cross.PrependMembers | calculadora.py:128 | a tuple comes from the extended product iff its head is an entry of the new pool and its tail is an old tuple |
| Cross.ProductMembers | calculadora.py:128 | `itertools.product` yields exactly the tuples that take one entry from each pool, in pool order |
| Cross.WeightSnoc | calculadora.py:130-146 | one more `prob *= p` multiplies the weight by the entry's probability |
| Cross.TagList | calculadora.py:131-145 | one tag per entry of the tuple |
| Cross.Frozen | calculadora.py:147 | the frozenset holds exactly the tags of the list |
| Cross.MergeMeaning | calculadora.py:127-147 | the merged map has a tag set iff some tuple shows it, and its value is the sum of the weights of those tuples |
| Cross.MassRemove | calculadora.py:147 | the total of the outcomes is one outcome plus the total of the rest |
| Cross.MassUpdate | calculadora.py:147 | changing one outcome changes the total by the same amount |
| Cross.MergeMass | calculadora.py:127-147 | merging keeps the total weight of the tuples |
| Cross.WeightSumConcat | calculadora.py:128-146 | the weight of two joined tuple lists is the sum of their weights |
| Cross.WeightSumCons | calculadora.py:128-146 | putting an entry in front of every tuple multiplies the total weight by its probability |
| Cross.PrependSplit | calculadora.py:128 | the extended product's weight splits by the first pool's first entry |
| Cross.WeightSumPrepend | calculadora.py:128-146 | putting a pool in front of tuples of total weight 1 gives the pool's total |
| Cross.ProductMass | calculadora.py:128-146 | when every pool sums to 1, the product's tuples weigh 1 in total |
| Cross.TagSetWellTagged | calculadora.py:131-147 | with distinct trait names, a tuple's tag set has at most one tag per trait, each naming a key |
| Cross.Pools | calculadora.py:126 | one pool per sorted key |
| Cross.MergeStep | calculadora.py:147 | one pass of the outer loop adds the tuple's weight to its tag set |
| Cross.TupleStep | calculadora.py:131-146 | one pass of the inner loop appends the entry's tag and multiplies in its probability |
| Cross.TupleOutcome | calculadora.py:129-146 | the inner loop's method builds the tuple's tags, one per trait, and the product of its probabilities |
| Cross.CrossDicts | calculadora.py:124-148 | the method returns the merged map of the product over the sorted traits (`Joint`) |
| Cross.JointFits | calculadora.py:125-128 | every tuple of the product has one entry per trait |
| Cross.JointWellTagged | calculadora.py:124-148 | every outcome of `cross_dicts` has at most one tag per trait, naming only its input traits |
| Cross.JointMass | calculadora.py:124-148 | when every pool sums to 1, the outcomes' probabilities sum to 1 |
| Cross.EmptyCross | calculadora.py:124-148 | no traits give the empty outcome with certainty |
| Cross.ResolveOne | calculadora.py:154-158 | the loop body's method returns the entries of the trait's distribution, with a missing label defaulting to "No porta" |
| Cross.ResolvedNames | calculadora.py:152-158 | after visiting some names, the map holds exactly those names, each with its pool |
| Cross.ResolvedSnoc | calculadora.py:153-158 | one more pass stores one more name |
| Cross.ResolvedAll | calculadora.py:151-158 | visiting every name in sorted order gives the map of all names |
| Cross.CalculateFullCross | calculadora.py:150-159 | the method returns `cross_dicts` of one pool per trait of either parent |
| Cross.FullCrossLaws | calculadora.py:150-159 | exactly the traits of either parent are resolved; each pool sums to 1; the outcomes sum to 1; every outcome has at most one tag per trait, each naming a parent's trait |
| Cross.BaseTraitIsWild | calculadora.py:85-86 | a base trait gives the single Wild entry, also when one parent lacks it |
| Cross.OneSidedHet | calculadora.py:155-158 | a recessive Het that the other parent lacks meets the default "No porta": half Het, half No porta |

## Left out

- The Streamlit interface is not modelled. That covers the multiselects, the selectboxes, `trait_inputs`, the `EXPLICACIONES` texts, the button, sorting results by probability for display, and the output formatting. It is user I/O.
- Loading the morph list from JSON is not modelled. It is file I/O, and the engine takes trait names as given.
- Lower-casing covers ASCII letters only. Python's `str.lower` also folds non-ASCII letters. None of the classifier's keywords contains one.
- Probabilities are exact reals. The source uses binary floating point.
- The HTML badges are modelled as a `Tag` datatype: one constructor per kind, each holding the trait name (the wild-type badge holds none). Each kind has its own colour and wording, so two badges are equal as strings exactly when they are equal as `Tag`s.
- The final `else` badge of `cross_dicts` is not modelled. It cannot be reached, because `Phenotype` has only the five labels the resolver produces.
- `get_alleles` falls through for mode strings that are not one of the four, and `resultado_trait` returns an empty result for them. Neither case is modelled, because `Mode` has exactly the four values that `infer_tipo` returns.
- Resolver.ResolveTrait: the `trait` parameter is kept but unused, as in the source.
- Cross.Items: the entries are listed in a fixed label order, not in the dictionary's insertion order. Only the order of the product's tuples depends on this. The merged map does not.
- Cross.WeightSumPrepend, Cross.ProductMass: stated only for tuples and pools of total weight 1, which is the case that occurs in the cross.
- Cross.TupleOutcome, Cross.ResolveOne, Resolver.SquareDistribution: these helper methods hold the bodies or inner loops of the source functions they belong to.
- "Pos Het", "66% Het" and "50% Het" count as certain carriers, because `get_alleles` maps them to Rr. The model keeps this, and Alleles.HetLabelsCarry states it.
