/** `categorize_contract`: the folder a contract goes to, decided by word
    roots found in its lower-cased type and text. */
module Categorize {
  import opened Chars
  import opened Strings

  /** The five folders a contract can land in. */
  datatype Category = Lease | Supply | Services | Labor | Other

  /** The folder name of each category. */
  function Label(c: Category): (l: string)
    ensures l in {"Аренда", "Поставка", "Услуги", "Трудовые", "Прочие"}
  {
    match c
    case Lease => "Аренда"
    case Supply => "Поставка"
    case Services => "Услуги"
    case Labor => "Трудовые"
    case Other => "Прочие"
  }

  /** Different categories go to different folders. */
  lemma LabelInjective(c: Category, d: Category)
    ensures Label(c) == Label(d) ==> c == d
  {
  }

  const InvestmentRoots: seq<string> := ["инвестицион", "товарищест", "паев", "актив", "фонд"]
  const SaleRoots: seq<string> := ["купл", "продаж"]
  const RealEstateRoots: seq<string> := ["недвижим", "складск", "помещен", "квартир", "дом", "здан"]

  const LaborRoots: seq<string> := ["трудовой", "труда", "работник", "занят", "кадр", "работодатель"]
  const LeaseRoots: seq<string> := ["аренд", "найм", "жил", "нежил"]
  const SupplyRoots: seq<string> := ["поставк", "товар", "розничн"]
  const ServicesRoots: seq<string> := ["услуг", "подряд", "строительн", "перевоз", "организац"]

  /** The keyword buckets in the order they are consulted. */
  const Buckets: seq<(Category, seq<string>)> :=
    [(Labor, LaborRoots), (Lease, LeaseRoots), (Supply, SupplyRoots), (Services, ServicesRoots)]

  /** `any(word in text for word in roots)` */
  function MentionsAny(text: string, roots: seq<string>): (b: bool)
    ensures b <==> exists k :: 0 <= k < |roots| && Contains(text, roots[k])
  {
    if roots == [] then false
    else Contains(text, roots[0]) || MentionsAny(text, roots[1..])
  }

  /** The category of the first bucket whose roots occur in `text`, `Other` when none does. */
  function FirstBucket(text: string, buckets: seq<(Category, seq<string>)>): (c: Category)
    requires forall b <- buckets :: b.0 != Other
    ensures c == Other <==> forall k :: 0 <= k < |buckets| ==> !MentionsAny(text, buckets[k].1)
    ensures c != Other ==>
      exists k :: 0 <= k < |buckets| && buckets[k].0 == c && MentionsAny(text, buckets[k].1)
        && forall kk :: 0 <= kk < k ==> !MentionsAny(text, buckets[kk].1)
  {
    if buckets == [] then Other
    else if MentionsAny(text, buckets[0].1) then buckets[0].0
    else
      var c := FirstBucket(text, buckets[1..]);
      assert forall k :: 1 <= k < |buckets| ==> buckets[k] == buckets[1..][k - 1];
      c
  }

  /** `(contract_type + ' ' + text).lower()`: the type and the text, each
      lower-cased, with a space between; lower-casing it again changes nothing. */
  function Analysis(text: string, contractType: string): (a: string)
    ensures a == Lower(contractType) + " " + Lower(text)
    ensures Lower(a) == a
  {
    var a := Lower(contractType + " " + text);
    LowerAppend3(contractType, " ", text);
    assert Lower(" ") == " ";
    LowerTwice(contractType + " " + text);
    a
  }

  /** Lower-casing twice is lower-casing once. */
  lemma LowerTwice(s: string)
    ensures Lower(Lower(s)) == Lower(s)
  {
    var l := Lower(Lower(s));
    forall k | 0 <= k < |l|
      ensures l[k] == Lower(s)[k]
    {
      LowerCharTwice(s[k]);
    }
  }

  /** Either exclusion that sends a contract to `Прочие` before any bucket is consulted. */
  predicate Excluded(a: string) {
    MentionsAny(a, InvestmentRoots)
    || (MentionsAny(a, SaleRoots) && MentionsAny(a, RealEstateRoots))
  }

  /** b1.py:156-182: an exclusion sends the contract to `Other`; any other
      category is one whose roots the analysed text mentions. */
  function Categorize(text: string, contractType: string): (c: Category)
    ensures Excluded(Analysis(text, contractType)) ==> c == Other
    ensures c != Other ==> exists k :: 0 <= k < |Buckets| && Buckets[k].0 == c && MentionsAny(Analysis(text, contractType), Buckets[k].1)
  {
    var a := Analysis(text, contractType);
    if MentionsAny(a, InvestmentRoots) then Other
    else if (Contains(a, "купл") || Contains(a, "продаж")) && MentionsAny(a, RealEstateRoots) then Other
    else
      SaleRootsMentioned(a);
      FirstBucket(a, Buckets)
  }

  /** The folder name `categorize_contract` returns: always one of the five. */
  function CategorizeContract(text: string, contractType: string): (folder: string)
    ensures folder in {"Аренда", "Поставка", "Услуги", "Трудовые", "Прочие"}
  {
    Label(Categorize(text, contractType))
  }

  /** The classifier, category by category: an exclusion forces `Other`,
      otherwise the first bucket in the order labour, lease, supply,
      services whose roots occur decides, and `Other` is left when none does. */
  lemma {:induction false} CategorizeSpec(text: string, contractType: string)
    ensures var a := Analysis(text, contractType);
      var c := Categorize(text, contractType);
      && (Excluded(a) ==> c == Other)
      && (c == Labor <==> !Excluded(a) && MentionsAny(a, LaborRoots))
      && (c == Lease <==> !Excluded(a) && !MentionsAny(a, LaborRoots) && MentionsAny(a, LeaseRoots))
      && (c == Supply <==> !Excluded(a) && !MentionsAny(a, LaborRoots) && !MentionsAny(a, LeaseRoots)
                           && MentionsAny(a, SupplyRoots))
      && (c == Services <==> !Excluded(a) && !MentionsAny(a, LaborRoots) && !MentionsAny(a, LeaseRoots)
                             && !MentionsAny(a, SupplyRoots) && MentionsAny(a, ServicesRoots))
  {
    var a := Analysis(text, contractType);
    SaleRootsMentioned(a);
    BucketOrder(a);
  }

  /** The sale test spells out the two sale roots. */
  lemma SaleRootsMentioned(a: string)
    ensures MentionsAny(a, SaleRoots) == (Contains(a, "купл") || Contains(a, "продаж"))
  {
    assert MentionsAny(a, SaleRoots[1..][1..]) == false;
  }

  /** The buckets decide in the order labour, lease, supply, services. */
  lemma BucketOrder(a: string)
    ensures var c := FirstBucket(a, Buckets);
      && (c == Labor <==> MentionsAny(a, LaborRoots))
      && (c == Lease <==> !MentionsAny(a, LaborRoots) && MentionsAny(a, LeaseRoots))
      && (c == Supply <==> !MentionsAny(a, LaborRoots) && !MentionsAny(a, LeaseRoots) && MentionsAny(a, SupplyRoots))
      && (c == Services <==> !MentionsAny(a, LaborRoots) && !MentionsAny(a, LeaseRoots)
                             && !MentionsAny(a, SupplyRoots) && MentionsAny(a, ServicesRoots))
  {
    var c := FirstBucket(a, Buckets);
    assert Buckets[0].1 == LaborRoots && Buckets[1].1 == LeaseRoots;
    assert Buckets[2].1 == SupplyRoots && Buckets[3].1 == ServicesRoots;
    if c != Other {
      var k :| 0 <= k < |Buckets| && Buckets[k].0 == c && MentionsAny(a, Buckets[k].1)
               && forall kk :: 0 <= kk < k ==> !MentionsAny(a, Buckets[kk].1);
      assert k == 0 || k == 1 || k == 2 || k == 3;
    }
  }

  /** Lower-casing is idempotent on every character. */
  lemma LowerCharTwice(c: char)
    ensures LowerChar(LowerChar(c)) == LowerChar(c)
  {
  }

  lemma {:induction false} LowerAppend3(a: string, b: string, c: string)
    ensures Lower(a + b + c) == Lower(a) + Lower(b) + Lower(c)
  {
    var l := Lower(a + b + c);
    var r := Lower(a) + Lower(b) + Lower(c);
    assert |l| == |r|;
    forall k | 0 <= k < |l|
      ensures l[k] == r[k]
    {
      if k < |a| {
      } else if k < |a| + |b| {
        assert r[k] == Lower(b)[k - |a|];
      } else {
        assert r[k] == Lower(c)[k - |a| - |b|];
      }
    }
  }

  /** The category ignores letter case: lower-casing the text and the type
      first gives the same folder. */
  lemma {:induction false} CategorizeIgnoresCase(text: string, contractType: string)
    ensures Categorize(Lower(text), Lower(contractType)) == Categorize(text, contractType)
  {
    var a := Analysis(text, contractType);
    assert Analysis(Lower(text), Lower(contractType)) == Lower(Lower(contractType) + " " + Lower(text));
    assert Analysis(Lower(text), Lower(contractType)) == a;
  }
}
