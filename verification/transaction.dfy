/**
 * The sale notice of `SendTransactionInformation`: the copper total is split into
 * gold, silver and copper, one of seven sentence shapes is chosen from the tiers
 * that are present, and the item link carries a quantity only for stacks.
 * The chat colour codes and the sentence text are presentation only; a notice is
 * modelled as the structured data those strings are formatted from.
 */
module Transaction {
  import opened Wrappers
  import opened Ints

  /** Copper per silver and copper per gold (host currency constants). */
  const SILVER: nat := 100
  const GOLD: nat := 10000

  /** An amount written in the three currency tiers. */
  datatype Coins = Coins(gold: nat, silver: nat, copper: nat)

  /** The amount in copper that a tier triple stands for. */
  function Value(c: Coins): nat {
    c.gold * GOLD + c.silver * SILVER + c.copper
  }

  /** No tier below gold holds a whole unit of the tier above it. */
  predicate Canonical(c: Coins) {
    c.silver < GOLD / SILVER && c.copper < SILVER
  }

  /** The three integer divisions of the source (`total / GOLD`, ...). */
  function Split(total: uint32): (c: Coins)
    ensures Canonical(c)
    ensures Value(c) == total
  {
    var gold := total / GOLD;
    var rest := total % GOLD;
    var silver := rest / SILVER;
    var copper := total % SILVER;
    assert rest == silver * SILVER + rest % SILVER;
    assert total == gold * GOLD + rest;
    assert rest % SILVER == copper by {
      CopperOfRest(total, gold);
    }
    Coins(gold, silver, copper)
  }

  /** `total % 100` is the copper left in `total % 10000`, since 100 divides 10000. */
  lemma CopperOfRest(total: nat, gold: nat)
    requires gold == total / GOLD
    ensures (total % GOLD) % SILVER == total % SILVER
  {
    var rest := total % GOLD;
    assert total == (gold * (GOLD / SILVER)) * SILVER + rest;
    ModOfMultiplePlus(gold * (GOLD / SILVER), rest, SILVER);
  }

  lemma ModOfMultiplePlus(q: nat, r: nat, d: nat)
    requires d > 0
    ensures (q * d + r) % d == r % d
  {
    var x := q * d + r;
    var rq := r / d;
    assert r == rq * d + r % d;
    assert x == (q + rq) * d + r % d;
    DivModUnique(x, q + rq, r % d, d);
  }

  /** Euclidean division has one quotient and remainder. */
  lemma DivModUnique(x: nat, q: nat, r: nat, d: nat)
    requires d > 0 && r < d && x == q * d + r
    ensures x / d == q && x % d == r
  {
    var q' := x / d;
    var r' := x % d;
    assert x == q' * d + r';
    if q' < q {
      MulSplit(q', q - q', d);
      assert false;
    } else if q' > q {
      MulSplit(q, q' - q, d);
      assert false;
    }
  }

  lemma MulSplit(a: nat, k: nat, d: nat)
    requires k >= 1
    ensures (a + k) * d >= a * d + d
  {
    assert (a + k) * d == a * d + k * d;
    assert k * d >= 1 * d;
  }

  /** Splitting is the inverse of `Value` on canonical triples that fit the 32-bit total. */
  lemma {:induction false} SplitOfValue(c: Coins)
    requires Canonical(c) && Value(c) < UINT32_LIMIT
    ensures Split(Value(c)) == c
  {
    var total := Value(c);
    var rest := c.silver * SILVER + c.copper;
    assert rest < GOLD;
    DivModUnique(total, c.gold, rest, GOLD);
    DivModUnique(rest, c.silver, c.copper, SILVER);
    CopperOfRest(total, c.gold);
  }

  /**
   * The seven sentence shapes of the notice: which tiers a sentence names, each
   * with the count it states.
   */
  datatype Sentence =
    | CopperOnly(copper: nat)
    | SilverOnly(silver: nat)
    | SilverAndCopper(silver: nat, copper: nat)
    | GoldOnly(gold: nat)
    | GoldAndCopper(gold: nat, copper: nat)
    | GoldAndSilver(gold: nat, silver: nat)
    | GoldSilverCopper(gold: nat, silver: nat, copper: nat)
  {
    /** The gold count the sentence names, if it names gold. */
    function NamedGold(): Option<nat> {
      if GoldOnly? || GoldAndCopper? || GoldAndSilver? || GoldSilverCopper? then Some(gold) else None
    }

    function NamedSilver(): Option<nat> {
      if SilverOnly? || SilverAndCopper? || GoldAndSilver? || GoldSilverCopper? then Some(silver) else None
    }

    function NamedCopper(): Option<nat> {
      if CopperOnly? || SilverAndCopper? || GoldAndCopper? || GoldSilverCopper? then Some(copper) else None
    }

    /** The copper amount a reader of the sentence adds up. */
    function Announced(): nat {
      Value(Coins(NamedGold().GetOr(0), NamedSilver().GetOr(0), NamedCopper().GetOr(0)))
    }
  }

  /** The sentence chosen for a sale worth `total` copper. */
  function SentenceFor(total: uint32): (s: Sentence)
    ensures s.NamedGold().Some? <==> total >= GOLD
    ensures s.NamedSilver().Some? <==> SILVER <= total && (total < GOLD || Split(total).silver > 0)
    ensures s.NamedCopper().Some? <==> total < SILVER || Split(total).copper > 0
    ensures s.NamedGold().Some? ==> s.NamedGold().value == Split(total).gold
    ensures s.NamedSilver().Some? ==> s.NamedSilver().value == Split(total).silver
    ensures s.NamedCopper().Some? ==> s.NamedCopper().value == Split(total).copper
  {
    var c := Split(total);
    if total < SILVER then CopperOnly(c.copper)
    else if total < GOLD then
      (if c.copper > 0 then SilverAndCopper(c.silver, c.copper) else SilverOnly(c.silver))
    else if c.copper > 0 && c.silver > 0 then GoldSilverCopper(c.gold, c.silver, c.copper)
    else if c.copper > 0 then GoldAndCopper(c.gold, c.copper)
    else if c.silver > 0 then GoldAndSilver(c.gold, c.silver)
    else GoldOnly(c.gold)
  }

  /** The tiers a sentence leaves out are zero, so it states exactly the sale total. */
  lemma {:induction false} SentenceAnnouncesTotal(total: uint32)
    ensures SentenceFor(total).Announced() == total
  {
  }

  /** A sentence never names a zero tier, except the copper of a sale worth nothing. */
  lemma {:induction false} SentenceNamesNoZeroTier(total: uint32)
    ensures SentenceFor(total).NamedGold().GetOr(1) > 0
    ensures SentenceFor(total).NamedSilver().GetOr(1) > 0
    ensures SentenceFor(total).NamedCopper().GetOr(1) > 0 || total == 0
  {
  }

  /** The worked amounts: 50, 150, 10000, 10050 and 10100 copper. */
  lemma SentenceExamples()
    ensures SentenceFor(50) == CopperOnly(50)
    ensures SentenceFor(150) == SilverAndCopper(1, 50)
    ensures SentenceFor(10000) == GoldOnly(1)
    ensures SentenceFor(10050) == GoldAndCopper(1, 50)
    ensures SentenceFor(10100) == GoldAndSilver(1, 1)
  {
  }

  /** The item link: the item's id and name, and the stack size when it is shown. */
  datatype ItemLink = ItemLink(itemId: uint32, name: string, quantity: Option<uint32>)

  /** The stack size a reader of the link infers: a link without a quantity is one item. */
  function ShownCount(link: ItemLink): uint32 {
    link.quantity.GetOr(1)
  }

  /** The link formatted for `count` looted units of item `itemId` called `name`. */
  function LinkFor(itemId: uint32, name: string, count: uint32): (link: ItemLink)
    ensures link.itemId == itemId && link.name == name
    ensures link.quantity.Some? <==> count > 1
  {
    ItemLink(itemId, name, if count > 1 then Some(count) else None)
  }

  /** The link reports the looted stack size, whenever at least one unit was looted. */
  lemma LinkShowsCount(itemId: uint32, name: string, count: uint32)
    requires count >= 1
    ensures ShownCount(LinkFor(itemId, name, count)) == count
  {
  }

  /** The broadcast notice: the item link followed by the sale sentence. */
  datatype Notice = Notice(link: ItemLink, sentence: Sentence)

  /** `SendTransactionInformation` up to the formatting of the text. */
  function TransactionInformation(itemId: uint32, name: string, count: uint32, total: uint32): (n: Notice)
    ensures n.link.itemId == itemId && n.link.name == name
    ensures n.link.quantity.Some? <==> count > 1
    ensures n.link.quantity.Some? ==> n.link.quantity.value == count
    ensures n.sentence == SentenceFor(total)
    ensures n.sentence.Announced() == total
  {
    SentenceAnnouncesTotal(total);
    Notice(LinkFor(itemId, name, count), SentenceFor(total))
  }
}
