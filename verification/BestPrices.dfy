/** Best price per outcome across bookmakers (`app/worker/pipeline/runner.py`). */
module BestPrices {
  import opened Money
  import opened Odds
  import opened Domain

  // ---- The feed, where every field may be missing ----

  datatype Outcome = Outcome(name: Option<string>, price: Option<int>)

  datatype Market = Market(key: Option<string>, outcomes: seq<Outcome>)

  datatype Bookmaker = Bookmaker(key: Option<string>, markets: seq<Market>)

  function Or<T>(o: Option<T>, default: T): T {
    if o.Some? then o.value else default
  }

  function BookKey(b: Bookmaker): string {
    Or(b.key, "unknown")
  }

  function MarketKey(m: Market): string {
    Or(m.key, "h2h")
  }

  // ---- The feed, flattened ----

  datatype Quote = Quote(market: string, name: string, book: string, price: int)

  datatype BookPrice = BookPrice(bookmaker: string, price: int)

  function QuoteOf(b: Bookmaker, m: Market, o: Outcome): Quote {
    Quote(MarketKey(m), Or(o.name, ""), BookKey(b), Or(o.price, 0))
  }

  function MarketQuotes(b: Bookmaker, m: Market, n: nat): seq<Quote>
    requires n <= |m.outcomes|
  {
    if n == 0 then [] else MarketQuotes(b, m, n - 1) + [QuoteOf(b, m, m.outcomes[n - 1])]
  }

  function BookQuotes(b: Bookmaker, n: nat): seq<Quote>
    requires n <= |b.markets|
  {
    if n == 0 then [] else BookQuotes(b, n - 1) + MarketQuotes(b, b.markets[n - 1], |b.markets[n - 1].outcomes|)
  }

  /** Every quote of the first `n` bookmakers, in input order. */
  function Quotes(bookmakers: seq<Bookmaker>, n: nat): seq<Quote>
    requires n <= |bookmakers|
  {
    if n == 0 then [] else Quotes(bookmakers, n - 1) + BookQuotes(bookmakers[n - 1], |bookmakers[n - 1].markets|)
  }

  function BookMarkets(b: Bookmaker, n: nat): set<string>
    requires n <= |b.markets|
  {
    if n == 0 then {} else BookMarkets(b, n - 1) + {MarketKey(b.markets[n - 1])}
  }

  function Markets(bookmakers: seq<Bookmaker>, n: nat): set<string>
    requires n <= |bookmakers|
  {
    if n == 0 then {} else Markets(bookmakers, n - 1) + BookMarkets(bookmakers[n - 1], |bookmakers[n - 1].markets|)
  }

  /** A quote as the feed states it: a bookmaker without a key is unknown, a market without one is a head-to-head, and an
      outcome may lack its name or its price. */
  predicate States(b: Bookmaker, m: Market, o: Outcome, q: Quote) {
    && q.book == (if b.key.None? then "unknown" else b.key.value)
    && q.market == (if m.key.None? then "h2h" else m.key.value)
    && q.name == (if o.name.None? then "" else o.name.value)
    && q.price == (if o.price.None? then 0 else o.price.value)
  }

  ghost predicate StatedIn(b: Bookmaker, m: Market, q: Quote) {
    exists o :: o in m.outcomes && States(b, m, o, q)
  }

  ghost predicate StatedBy(b: Bookmaker, q: Quote) {
    exists m :: m in b.markets && StatedIn(b, m, q)
  }

  lemma {:induction false} MarketQuotesAre(b: Bookmaker, m: Market, n: nat, q: Quote)
    requires n <= |m.outcomes|
    ensures q in MarketQuotes(b, m, n) <==> exists k :: 0 <= k < n && States(b, m, m.outcomes[k], q)
  {
    if n > 0 {
      MarketQuotesAre(b, m, n - 1, q);
      assert States(b, m, m.outcomes[n - 1], q) <==> q == QuoteOf(b, m, m.outcomes[n - 1]);
    }
  }

  lemma {:induction false} BookQuotesAre(b: Bookmaker, n: nat, q: Quote)
    requires n <= |b.markets|
    ensures q in BookQuotes(b, n) <==> exists j :: 0 <= j < n && StatedIn(b, b.markets[j], q)
  {
    if n > 0 {
      var m := b.markets[n - 1];
      BookQuotesAre(b, n - 1, q);
      MarketQuotesAre(b, m, |m.outcomes|, q);
      hide States, MarketQuotes;
      if StatedIn(b, m, q) {
        var o :| o in m.outcomes && States(b, m, o, q);
        var k :| 0 <= k < |m.outcomes| && m.outcomes[k] == o;
      }
    }
  }

  lemma {:induction false} FirstQuotesAre(bookmakers: seq<Bookmaker>, n: nat, q: Quote)
    requires n <= |bookmakers|
    ensures q in Quotes(bookmakers, n) <==> exists i :: 0 <= i < n && StatedBy(bookmakers[i], q)
  {
    if n > 0 {
      var b := bookmakers[n - 1];
      FirstQuotesAre(bookmakers, n - 1, q);
      BookQuotesAre(b, |b.markets|, q);
      hide StatedIn, BookQuotes;
      if StatedBy(b, q) {
        var m :| m in b.markets && StatedIn(b, m, q);
        var j :| 0 <= j < |b.markets| && b.markets[j] == m;
      }
    }
  }

  /** The flattened quotes are exactly those the feed states. */
  lemma QuotesAreStated(bookmakers: seq<Bookmaker>, q: Quote)
    ensures q in Quotes(bookmakers, |bookmakers|) <==> exists b :: b in bookmakers && StatedBy(b, q)
  {
    FirstQuotesAre(bookmakers, |bookmakers|, q);
    hide Quotes, StatedBy;
    if b :| b in bookmakers && StatedBy(b, q) {
      var i :| 0 <= i < |bookmakers| && bookmakers[i] == b;
    }
  }

  ghost predicate Lists(b: Bookmaker, key: string) {
    exists m :: m in b.markets && key == (if m.key.None? then "h2h" else m.key.value)
  }

  lemma {:induction false} BookMarketsAre(b: Bookmaker, n: nat, key: string)
    requires n <= |b.markets|
    ensures key in BookMarkets(b, n) <==> exists j :: 0 <= j < n && MarketKey(b.markets[j]) == key
  {
    if n > 0 {
      BookMarketsAre(b, n - 1, key);
    }
  }

  /** The markets of the result are those that some bookmaker names, an outcome or not. */
  lemma {:induction false} MarketsAreNamed(bookmakers: seq<Bookmaker>, n: nat, key: string)
    requires n <= |bookmakers|
    ensures key in Markets(bookmakers, n) <==> exists i :: 0 <= i < n && Lists(bookmakers[i], key)
  {
    if n > 0 {
      var b := bookmakers[n - 1];
      MarketsAreNamed(bookmakers, n - 1, key);
      BookMarketsAre(b, |b.markets|, key);
      hide BookMarkets;
      if Lists(b, key) {
        var m :| m in b.markets && key == (if m.key.None? then "h2h" else m.key.value);
        var j :| 0 <= j < |b.markets| && b.markets[j] == m;
      }
    }
  }

  // ---- What the result must be ----

  datatype Entry = Entry(name: string, price: int, bookPrices: seq<BookPrice>)

  /** The outcomes of a market, in order of first appearance. */
  function Names(quotes: seq<Quote>, market: string): seq<string> {
    if quotes == [] then []
    else
      var last := quotes[|quotes| - 1];
      var before := Names(quotes[..|quotes| - 1], market);
      if last.market == market && last.name !in before then before + [last.name] else before
  }

  /** The prices offered on one outcome, in input order. */
  function Offers(quotes: seq<Quote>, market: string, name: string): seq<BookPrice> {
    if quotes == [] then []
    else
      var last := quotes[|quotes| - 1];
      var before := Offers(quotes[..|quotes| - 1], market, name);
      if last.market == market && last.name == name then before + [BookPrice(last.book, last.price)] else before
  }

  function Highest(offers: seq<BookPrice>): int
    requires offers != []
  {
    if |offers| == 1 then offers[0].price
    else
      var before, last := Highest(offers[..|offers| - 1]), offers[|offers| - 1].price;
      if last > before then last else before
  }

  function Best(quotes: seq<Quote>, market: string): seq<Entry> {
    var names := Names(quotes, market);
    seq(|names|, i requires 0 <= i < |names| =>
      NamesOffered(quotes, market, names[i]);
      Entry(names[i], Highest(Offers(quotes, market, names[i])), Offers(quotes, market, names[i])))
  }

  lemma {:induction false} NamesOffered(quotes: seq<Quote>, market: string, name: string)
    ensures name in Names(quotes, market) <==> Offers(quotes, market, name) != []
  {
    if quotes != [] {
      NamesOffered(quotes[..|quotes| - 1], market, name);
    }
  }

  ghost predicate Different(names: seq<string>) {
    forall i, j :: 0 <= i < j < |names| ==> names[i] != names[j]
  }

  lemma {:induction false} NamesAreDifferent(quotes: seq<Quote>, market: string)
    ensures Different(Names(quotes, market))
  {
    if quotes != [] {
      NamesAreDifferent(quotes[..|quotes| - 1], market);
    }
  }

  lemma {:induction false} HighestIsMaximum(offers: seq<BookPrice>)
    requires offers != []
    ensures forall o :: o in offers ==> o.price <= Highest(offers)
    ensures exists o :: o in offers && o.price == Highest(offers)
  {
    var n := |offers| - 1;
    if n > 0 {
      HighestIsMaximum(offers[..n]);
      var o :| o in offers[..n] && o.price == Highest(offers[..n]);
      assert offers == offers[..n] + [offers[n]];
      assert offers[n] in offers && o in offers;
    } else {
      assert offers[0] in offers;
    }
  }

  // ---- Properties of the result ----

  lemma {:induction false} OffersAreQuotes(quotes: seq<Quote>, market: string, name: string, o: BookPrice)
    ensures o in Offers(quotes, market, name) <==> Quote(market, name, o.bookmaker, o.price) in quotes
  {
    if quotes != [] {
      var n := |quotes| - 1;
      OffersAreQuotes(quotes[..n], market, name, o);
      assert quotes == quotes[..n] + [quotes[n]];
      assert Quote(market, name, o.bookmaker, o.price) in quotes <==>
             Quote(market, name, o.bookmaker, o.price) in quotes[..n] || quotes[n] == Quote(market, name, o.bookmaker, o.price);
    }
  }

  /** One entry per outcome quoted in the market. */
  lemma OneEntryPerOutcome(quotes: seq<Quote>, market: string)
    ensures forall i, j :: 0 <= i < j < |Best(quotes, market)| ==> Best(quotes, market)[i].name != Best(quotes, market)[j].name
    ensures forall q :: q in quotes && q.market == market ==> exists e :: e in Best(quotes, market) && e.name == q.name
  {
    NamesAreDifferent(quotes, market);
    forall q | q in quotes && q.market == market ensures exists e :: e in Best(quotes, market) && e.name == q.name {
      OffersAreQuotes(quotes, market, q.name, BookPrice(q.book, q.price));
      NamesOffered(quotes, market, q.name);
      hide Names, Offers;
      var i :| 0 <= i < |Names(quotes, market)| && Names(quotes, market)[i] == q.name;
      assert Best(quotes, market)[i] in Best(quotes, market);
    }
  }

  /** The kept price was offered, is numerically the highest, and its entry lists exactly the quotes
      on its outcome. */
  lemma EntryIsRight(quotes: seq<Quote>, market: string, e: Entry)
    requires e in Best(quotes, market)
    ensures e.bookPrices == Offers(quotes, market, e.name)
    ensures exists q :: q in quotes && q.market == market && q.name == e.name && q.price == e.price
    ensures forall q :: q in quotes && q.market == market && q.name == e.name ==> q.price <= e.price
  {
    NamesOffered(quotes, market, e.name);
    HighestIsMaximum(e.bookPrices);
    hide Names, Offers, Highest;
    var o :| o in e.bookPrices && o.price == e.price;
    OffersAreQuotes(quotes, market, e.name, o);
    assert Quote(market, e.name, o.bookmaker, o.price) in quotes;
    forall q | q in quotes && q.market == market && q.name == e.name ensures q.price <= e.price {
      OffersAreQuotes(quotes, market, e.name, BookPrice(q.book, q.price));
    }
  }

  predicate QuotedFor(q: Quote, market: string, e: Entry) {
    q.market == market && q.name == e.name
  }

  // ---- From entries to picks ----

  datatype Grade = A | B | C {
    function Rank(): nat {
      match this
      case A => 0
      case B => 1
      case C => 2
    }
  }

  /** Probabilities are scaled by 10^4. */
  datatype Config = Config(classA: int, classB: int, minGrade: Grade)

  datatype Candidate = Candidate(market: string, name: string, odds: int, decimal: int, implied: int, grade: Grade)

  /** 1 / decimal, to four places. */
  function ImpliedProb(decimal: int): int
    requires decimal > 0
  {
    HalfEven(100_000_000, decimal)
  }

  function GradeOf(implied: int, c: Config): Grade {
    if implied >= c.classA then A else if implied >= c.classB then B else C
  }

  /** Whether a price would be taken: it exists, and its grade is good enough. */
  predicate Taken(price: int, c: Config) {
    ValidAmerican(price) && GradeOf(ImpliedProb(AmericanToDecimal(price)), c).Rank() <= c.minGrade.Rank()
  }

  function CandidateOf(market: string, e: Entry, c: Config): Candidate
    requires ValidAmerican(e.price)
  {
    var decimal := AmericanToDecimal(e.price);
    Candidate(market, e.name, e.price, decimal, ImpliedProb(decimal), GradeOf(ImpliedProb(decimal), c))
  }

  function Chosen(market: string, entries: seq<Entry>, c: Config): seq<Candidate> {
    if entries == [] then []
    else
      var last := entries[|entries| - 1];
      Chosen(market, entries[..|entries| - 1], c) + (if Taken(last.price, c) then [CandidateOf(market, last, c)] else [])
  }

  /** The loop of `_process_odds` over the outcomes of one market. */
  method ProcessMarket(market: string, entries: seq<Entry>, c: Config) returns (picks: seq<Candidate>)
    ensures picks == Chosen(market, entries, c)
  {
    picks := [];
    for i := 0 to |entries|
      invariant picks == Chosen(market, entries[..i], c)
    {
      assert entries[..i + 1][..i] == entries[..i];
      var price := entries[i].price;
      if price == 0 || -100 < price < 100 {
        continue;
      }
      var decimal := AmericanToDecimal(price);
      var implied := ImpliedProb(decimal);
      var grade := if implied >= c.classA then A else if implied >= c.classB then B else C;
      if grade.Rank() > c.minGrade.Rank() {
        continue;
      }
      picks := picks + [Candidate(market, entries[i].name, price, decimal, implied, grade)];
    }
    assert entries[..|entries|] == entries;
  }

  /** What a pick of the pipeline says: the kept price of its outcome, decimal odds that follow it, the probability
      nearest to one over those, and the first grade whose threshold that reaches, which is good enough. */
  ghost predicate SaysRight(p: Candidate, entries: seq<Entry>, c: Config) {
    && (exists e :: e in entries && e.name == p.name && e.price == p.odds)
    && ValidAmerican(p.odds) && p.decimal >= 10_000
    && (p.odds > 0 ==> 100 * (p.decimal - 10_000) == 10_000 * p.odds)
    && (p.odds < 0 ==> 2 * Abs(-p.odds * (p.decimal - 10_000) - 1_000_000) <= -p.odds)
    && 2 * Abs(p.decimal * p.implied - 100_000_000) <= p.decimal
    && (p.grade.A? <==> p.implied >= c.classA)
    && (p.grade.B? <==> c.classB <= p.implied < c.classA)
    && (c.minGrade.A? ==> p.grade.A?) && (c.minGrade.B? ==> !p.grade.C?)
  }

  lemma {:induction false} PicksSayRight(market: string, entries: seq<Entry>, c: Config)
    ensures forall p :: p in Chosen(market, entries, c) ==> SaysRight(p, entries, c) && p.market == market
  {
    if entries != [] {
      var n := |entries| - 1;
      PicksSayRight(market, entries[..n], c);
      hide Taken, CandidateOf, AmericanToDecimal, HalfEven;
      assert entries == entries[..n] + [entries[n]];
      if Taken(entries[n].price, c) {
        CandidateSaysRight(market, entries[n], c);
      }
    }
  }

  lemma CandidateSaysRight(market: string, e: Entry, c: Config)
    requires Taken(e.price, c)
    ensures SaysRight(CandidateOf(market, e, c), [e], c) && CandidateOf(market, e, c).market == market
  {
    hide AmericanToDecimal, HalfEven;
    AmericanIsNearest(e.price);
    HalfEvenError(100_000_000, AmericanToDecimal(e.price));
    assert e in [e];
  }

  /** A better price is graded no better, so an outcome taken at its best price is taken at any price. */
  lemma TakenAtBestIsTakenAtAny(price: int, best: int, c: Config)
    requires ValidAmerican(price) && price <= best && Taken(best, c)
    ensures Taken(price, c)
  {
    AmericanToDecimalMonotone(price, best);
    HalfEvenAntitone(100_000_000, AmericanToDecimal(price), AmericanToDecimal(best));
    hide AmericanToDecimal, HalfEven;
  }

  lemma {:induction false} ChosenAre(market: string, entries: seq<Entry>, c: Config, name: string)
    ensures (exists p :: p in Chosen(market, entries, c) && p.name == name) <==>
            exists i :: 0 <= i < |entries| && entries[i].name == name && Taken(entries[i].price, c)
  {
    if entries != [] {
      var n := |entries| - 1;
      ChosenAre(market, entries[..n], c, name);
      hide Taken, CandidateOf;
      if i :| 0 <= i < n && entries[i].name == name && Taken(entries[i].price, c) {
        assert entries[..n][i].name == name;
      }
      if Taken(entries[n].price, c) {
        TakenIsNamed(market, entries[n], c);
      }
    }
  }

  lemma TakenIsNamed(market: string, e: Entry, c: Config)
    requires Taken(e.price, c)
    ensures CandidateOf(market, e, c).name == e.name
  {
  }

  /** An outcome becomes a pick exactly when its highest number is a price that exists and is graded well
      enough. When it exists no valid quote on the outcome pays more, and when it is taken each of them
      would have been taken too. If
      some quote on it is valid at all, the highest number does not exist exactly when every quote is
      below 100 and some quote is above -100: one such quote hides all the valid ones. */
  lemma OutcomeTakenIff(quotes: seq<Quote>, market: string, e: Entry, c: Config)
    requires e in Best(quotes, market)
    ensures (exists p :: p in Chosen(market, Best(quotes, market), c) && p.name == e.name) <==> Taken(e.price, c)
    ensures ValidAmerican(e.price) ==>
              forall q :: q in quotes && QuotedFor(q, market, e) && ValidAmerican(q.price) ==>
                       AmericanToDecimal(q.price) <= AmericanToDecimal(e.price) && (Taken(e.price, c) ==> Taken(q.price, c))
    ensures (forall q :: q in quotes && QuotedFor(q, market, e) ==> ValidAmerican(q.price)) ==> ValidAmerican(e.price)
    ensures (exists q :: q in quotes && QuotedFor(q, market, e) && ValidAmerican(q.price)) ==>
              (!ValidAmerican(e.price) <==>
                 && (forall q :: q in quotes && QuotedFor(q, market, e) ==> q.price < 100)
                 && (exists q :: q in quotes && QuotedFor(q, market, e) && q.price > -100))
  {
    EntryIsRight(quotes, market, e);
    OneEntryPerOutcome(quotes, market);
    var entries := Best(quotes, market);
    ChosenAre(market, entries, c, e.name);
    hide Best, AmericanToDecimal, Taken, Chosen;
    var k :| 0 <= k < |entries| && entries[k] == e;
    assert forall i :: 0 <= i < |entries| && entries[i].name == e.name ==> i == k;
    KeptIsHighest(quotes, market, e);
    if ValidAmerican(e.price) {
      forall q | q in quotes && QuotedFor(q, market, e) && ValidAmerican(q.price)
        ensures AmericanToDecimal(q.price) <= AmericanToDecimal(e.price) && (Taken(e.price, c) ==> Taken(q.price, c))
      {
        AmericanToDecimalMonotone(q.price, e.price);
        if Taken(e.price, c) { TakenAtBestIsTakenAtAny(q.price, e.price, c); }
      }
    }
  }

  lemma KeptIsHighest(quotes: seq<Quote>, market: string, e: Entry)
    requires exists q :: q in quotes && q.market == market && q.name == e.name && q.price == e.price
    requires forall q :: q in quotes && q.market == market && q.name == e.name ==> q.price <= e.price
    ensures exists q :: q in quotes && QuotedFor(q, market, e) && q.price == e.price
    ensures forall q :: q in quotes && QuotedFor(q, market, e) ==> q.price <= e.price
  {
    var kept :| kept in quotes && kept.market == market && kept.name == e.name && kept.price == e.price;
    assert QuotedFor(kept, market, e);
  }

  // ---- A missing price hides a good one ----

  /** One bookmaker quotes -110 on the home team; another lists the team without a price. */
  function HiddenQuote(): seq<Bookmaker> {
    [Bookmaker(Some("one"), [Market(Some("h2h"), [Outcome(Some("home"), Some(-110))])]),
     Bookmaker(Some("two"), [Market(Some("h2h"), [Outcome(Some("home"), None)])])]
  }

  const DEFAULTS: Config := Config(5_500, 5_000, B)

  lemma FirstQuotes()
    ensures
      var one, two := Quote("h2h", "home", "one", -110), Quote("h2h", "home", "two", 0);
      && Quotes(HiddenQuote(), 1) == [one] && Quotes(HiddenQuote(), 2) == [one, two]
  {
    var feed := HiddenQuote();
    assert MarketQuotes(feed[0], feed[0].markets[0], 1) == [Quote("h2h", "home", "one", -110)];
    assert MarketQuotes(feed[1], feed[1].markets[0], 1) == [Quote("h2h", "home", "two", 0)];
    assert BookQuotes(feed[0], 1) == [Quote("h2h", "home", "one", -110)];
    assert BookQuotes(feed[1], 1) == [Quote("h2h", "home", "two", 0)];
    assert Quotes(feed, 1) == [Quote("h2h", "home", "one", -110)];
  }

  /** With the first bookmaker alone the team becomes a pick; the second, which offers nothing, removes it. */
  lemma MissingPriceHidesAQuote()
    ensures
      var market := "h2h";
      && (exists p :: p in Chosen(market, Best(Quotes(HiddenQuote(), 1), market), DEFAULTS) && p.name == "home")
      && !(exists p :: p in Chosen(market, Best(Quotes(HiddenQuote(), 2), market), DEFAULTS) && p.name == "home")
  {
    hide Best, Quotes, Chosen, Taken, Names, Offers;
    FirstQuotes();
    BestOfFeed();
    OnlyTheQuoteIsTaken();
    var first, second := Best(Quotes(HiddenQuote(), 1), "h2h"), Best(Quotes(HiddenQuote(), 2), "h2h");
    ChosenAre("h2h", first, DEFAULTS, "home");
    ChosenAre("h2h", second, DEFAULTS, "home");
    assert first[0].name == "home" && Taken(first[0].price, DEFAULTS);
  }

  lemma OnlyTheQuoteIsTaken()
    ensures Taken(-110, DEFAULTS) && !Taken(0, DEFAULTS)
  {
    assert AmericanToDecimal(-110) == 19_091 && ImpliedProb(19_091) == 5_238;
  }

  lemma BestOfFeed()
    ensures Best(Quotes(HiddenQuote(), 1), "h2h") == [Entry("home", -110, [BookPrice("one", -110)])]
    ensures Best(Quotes(HiddenQuote(), 2), "h2h") == [Entry("home", 0, [BookPrice("one", -110), BookPrice("two", 0)])]
  {
    hide Best, Quotes;
    FirstQuotes();
    BestOfTwo(Quote("h2h", "home", "one", -110), Quote("h2h", "home", "two", 0));
  }

  lemma BestOfTwo(one: Quote, two: Quote)
    requires one.market == two.market && one.name == two.name
    ensures Best([one], one.market) == [Entry(one.name, one.price, [BookPrice(one.book, one.price)])]
    ensures Best([one, two], one.market)
         == [Entry(one.name, if two.price > one.price then two.price else one.price, [BookPrice(one.book, one.price), BookPrice(two.book, two.price)])]
  {
    hide Best, WithQuote;
    NothingQuoted([], one.market);
    OneMoreQuote([], one, one.market);
    OneMoreQuote([one], two, one.market);
    assert [] + [one] == [one] && [one] + [two] == [one, two];
    WithNewName(one);
    WithSameName(Entry(one.name, one.price, [BookPrice(one.book, one.price)]), two);
    assert [BookPrice(one.book, one.price)] + [BookPrice(two.book, two.price)] == [BookPrice(one.book, one.price), BookPrice(two.book, two.price)];
  }

  lemma WithNewName(q: Quote)
    ensures WithQuote([], q) == [Entry(q.name, q.price, [BookPrice(q.book, q.price)])]
  {
  }

  lemma WithSameName(e: Entry, q: Quote)
    requires e.name == q.name
    ensures WithQuote([e], q)
         == [Entry(q.name, if q.price > e.price then q.price else e.price, e.bookPrices + [BookPrice(q.book, q.price)])]
  {
    assert [e][0].name == q.name;
    assert First([e], q.name) == 0;
  }

  // ---- One more quote ----

  /** The dictionary update for one quote. */
  function WithQuote(entries: seq<Entry>, q: Quote): seq<Entry> {
    if exists i :: 0 <= i < |entries| && entries[i].name == q.name then
      var i := First(entries, q.name);
      entries[i := Entry(q.name, if q.price > entries[i].price then q.price else entries[i].price,
                         entries[i].bookPrices + [BookPrice(q.book, q.price)])]
    else entries + [Entry(q.name, q.price, [BookPrice(q.book, q.price)])]
  }

  function First(entries: seq<Entry>, name: string): (i: nat)
    requires exists i :: 0 <= i < |entries| && entries[i].name == name
    ensures i < |entries| && entries[i].name == name && forall j :: 0 <= j < i ==> entries[j].name != name
  {
    if entries[0].name == name then 0
    else
      var k :| 0 <= k < |entries| && entries[k].name == name;
      assert entries[1..][k - 1].name == name;
      1 + First(entries[1..], name)
  }

  lemma NamesAdd(quotes: seq<Quote>, q: Quote, market: string)
    ensures Names(quotes + [q], market)
         == if q.market == market && q.name !in Names(quotes, market) then Names(quotes, market) + [q.name] else Names(quotes, market)
  {
    assert (quotes + [q])[..|quotes|] == quotes;
  }

  lemma OffersAdd(quotes: seq<Quote>, q: Quote, market: string, name: string)
    ensures Offers(quotes + [q], market, name)
         == if q.market == market && q.name == name then Offers(quotes, market, name) + [BookPrice(q.book, q.price)]
            else Offers(quotes, market, name)
  {
    assert (quotes + [q])[..|quotes|] == quotes;
  }

  lemma HighestAdds(offers: seq<BookPrice>, o: BookPrice)
    ensures Highest([o]) == o.price
    ensures offers != [] ==> Highest(offers + [o]) == if o.price > Highest(offers) then o.price else Highest(offers)
  {
    assert (offers + [o])[..|offers|] == offers;
  }

  lemma BestAt(quotes: seq<Quote>, market: string, k: nat)
    requires k < |Names(quotes, market)|
    ensures Offers(quotes, market, Names(quotes, market)[k]) != []
    ensures |Best(quotes, market)| == |Names(quotes, market)|
    ensures
      var name := Names(quotes, market)[k];
      Best(quotes, market)[k] == Entry(name, Highest(Offers(quotes, market, name)), Offers(quotes, market, name))
  {
    NamesOffered(quotes, market, Names(quotes, market)[k]);
  }

  /** A quote on another outcome or market leaves an entry as it is. */
  lemma EntryStays(quotes: seq<Quote>, q: Quote, market: string, k: nat)
    requires k < |Names(quotes, market)| && !(q.market == market && q.name == Names(quotes, market)[k])
    ensures k < |Best(quotes, market)| && k < |Best(quotes + [q], market)|
    ensures Best(quotes + [q], market)[k] == Best(quotes, market)[k]
  {
    hide Best, Names, Offers, Highest;
    NamesAdd(quotes, q, market);
    OffersAdd(quotes, q, market, Names(quotes, market)[k]);
    BestAt(quotes, market, k);
    BestAt(quotes + [q], market, k);
  }

  lemma BestLength(quotes: seq<Quote>, market: string)
    ensures |Best(quotes, market)| == |Names(quotes, market)|
    ensures forall k :: 0 <= k < |Best(quotes, market)| ==> Best(quotes, market)[k].name == Names(quotes, market)[k]
  {
  }

  lemma OneMoreQuote(quotes: seq<Quote>, q: Quote, market: string)
    ensures Best(quotes + [q], market) == if q.market == market then WithQuote(Best(quotes, market), q) else Best(quotes, market)
  {
    hide Best, Names, Offers, Highest;
    var names, before, after := Names(quotes, market), Best(quotes, market), Best(quotes + [q], market);
    NamesAdd(quotes, q, market);
    BestLength(quotes, market);
    BestLength(quotes + [q], market);
    forall k | 0 <= k < |names| && !(q.market == market && q.name == names[k]) ensures after[k] == before[k] {
      EntryStays(quotes, q, market, k);
    }
    if q.market != market {
      assert after == before;
    } else if q.name in names {
      UpdatedEntry(quotes, q);
    } else {
      NewEntry(quotes, q);
    }
  }

  lemma UpdatedEntry(quotes: seq<Quote>, q: Quote)
    requires q.name in Names(quotes, q.market)
    requires forall k :: 0 <= k < |Names(quotes, q.market)| && q.name != Names(quotes, q.market)[k] ==>
               && k < |Best(quotes + [q], q.market)| && k < |Best(quotes, q.market)|
               && Best(quotes + [q], q.market)[k] == Best(quotes, q.market)[k]
    ensures Best(quotes + [q], q.market) == WithQuote(Best(quotes, q.market), q)
  {
    hide Best, Names, Offers, Highest;
    var names, before, after := Names(quotes, q.market), Best(quotes, q.market), Best(quotes + [q], q.market);
    NamesAdd(quotes, q, q.market);
    BestLength(quotes, q.market);
    BestLength(quotes + [q], q.market);
    OffersAdd(quotes, q, q.market, q.name);
    HighestAdds(Offers(quotes, q.market, q.name), BookPrice(q.book, q.price));
    NamesAreDifferent(quotes, q.market);
    var k :| 0 <= k < |names| && names[k] == q.name;
    assert before[k].name == q.name;
    assert First(before, q.name) == k;
    BestAt(quotes, q.market, k);
    BestAt(quotes + [q], q.market, k);
  }

  lemma NewEntry(quotes: seq<Quote>, q: Quote)
    requires q.name !in Names(quotes, q.market)
    requires forall k :: 0 <= k < |Names(quotes, q.market)| && q.name != Names(quotes, q.market)[k] ==>
               && k < |Best(quotes + [q], q.market)| && k < |Best(quotes, q.market)|
               && Best(quotes + [q], q.market)[k] == Best(quotes, q.market)[k]
    ensures Best(quotes + [q], q.market) == WithQuote(Best(quotes, q.market), q)
  {
    hide Best, Names, Offers, Highest;
    var offers := Offers(quotes, q.market, q.name);
    NamesAdd(quotes, q, q.market);
    BestLength(quotes, q.market);
    BestLength(quotes + [q], q.market);
    OffersAdd(quotes, q, q.market, q.name);
    HighestAdds(offers, BookPrice(q.book, q.price));
    NamesOffered(quotes, q.market, q.name);
    BestAt(quotes + [q], q.market, |Names(quotes, q.market)|);
    assert offers + [BookPrice(q.book, q.price)] == [BookPrice(q.book, q.price)];
  }

  lemma {:induction false} NothingQuoted(quotes: seq<Quote>, market: string)
    requires forall q :: q in quotes ==> q.market != market
    ensures Best(quotes, market) == []
  {
    if quotes != [] {
      NothingQuoted(quotes[..|quotes| - 1], market);
      assert quotes[|quotes| - 1] in quotes;
    }
  }

  // ---- _find_best_odds ----

  ghost predicate IsBest(best: map<string, seq<Entry>>, quotes: seq<Quote>, markets: set<string>) {
    && best.Keys == markets
    && (forall q :: q in quotes ==> q.market in markets)
    && (forall m :: m in best ==> best[m] == Best(quotes, m))
  }

  lemma NewMarket(best: map<string, seq<Entry>>, quotes: seq<Quote>, markets: set<string>, m: string)
    requires IsBest(best, quotes, markets)
    ensures IsBest(if m in best then best else best[m := []], quotes, markets + {m})
  {
    if m !in best {
      NothingQuoted(quotes, m);
    }
    hide Best;
  }

  lemma NewQuote(best: map<string, seq<Entry>>, quotes: seq<Quote>, markets: set<string>, q: Quote)
    requires IsBest(best, quotes, markets) && q.market in markets
    ensures IsBest(best[q.market := WithQuote(best[q.market], q)], quotes + [q], markets)
  {
    forall m | m in best ensures Best(quotes + [q], m) == if q.market == m then WithQuote(best[m], q) else best[m] {
      OneMoreQuote(quotes, q, m);
    }
    hide Best, WithQuote;
  }

  method FindName(entries: seq<Entry>, name: string) returns (found: Option<nat>)
    ensures found == if exists i :: 0 <= i < |entries| && entries[i].name == name then Some(First(entries, name)) else None
  {
    for i := 0 to |entries|
      invariant forall j :: 0 <= j < i ==> entries[j].name != name
    {
      if entries[i].name == name {
        assert First(entries, name) == i;
        return Some(i);
      }
    }
    found := None;
  }

  method AddQuote(entries: seq<Entry>, q: Quote) returns (updated: seq<Entry>)
    ensures updated == WithQuote(entries, q)
  {
    var existing := FindName(entries, q.name);
    match existing
    case Some(i) =>
      updated := entries[i := entries[i].(bookPrices := entries[i].bookPrices + [BookPrice(q.book, q.price)])];
      if q.price > updated[i].price {
        updated := updated[i := updated[i].(price := q.price)];
      }
    case None =>
      updated := entries + [Entry(q.name, q.price, [BookPrice(q.book, q.price)])];
  }

  lemma OneMoreOutcome(quotes: seq<Quote>, b: Bookmaker, m: Market, i: nat)
    requires i < |m.outcomes|
    ensures quotes + MarketQuotes(b, m, i) + [QuoteOf(b, m, m.outcomes[i])] == quotes + MarketQuotes(b, m, i + 1)
    ensures quotes + MarketQuotes(b, m, 0) == quotes
    ensures QuoteOf(b, m, m.outcomes[i]).market == MarketKey(m)
  {
  }

  lemma OneMoreMarket(quotes: seq<Quote>, markets: set<string>, b: Bookmaker, j: nat)
    requires j < |b.markets|
    ensures quotes + BookQuotes(b, j) + MarketQuotes(b, b.markets[j], |b.markets[j].outcomes|) == quotes + BookQuotes(b, j + 1)
    ensures markets + BookMarkets(b, j) + {MarketKey(b.markets[j])} == markets + BookMarkets(b, j + 1)
  {
    hide MarketQuotes;
  }

  lemma StartOfBook(quotes: seq<Quote>, markets: set<string>, b: Bookmaker)
    ensures quotes + BookQuotes(b, 0) == quotes && markets + BookMarkets(b, 0) == markets
  {
  }

  lemma StartOfMarket(quotes: seq<Quote>, b: Bookmaker, m: Market)
    ensures quotes + MarketQuotes(b, m, 0) == quotes
  {
  }

  lemma OneMoreBook(bookmakers: seq<Bookmaker>, i: nat)
    requires i < |bookmakers|
    ensures Quotes(bookmakers, i + 1) == Quotes(bookmakers, i) + BookQuotes(bookmakers[i], |bookmakers[i].markets|)
    ensures Markets(bookmakers, i + 1) == Markets(bookmakers, i) + BookMarkets(bookmakers[i], |bookmakers[i].markets|)
  {
  }

  method AddMarket(before: map<string, seq<Entry>>, b: Bookmaker, m: Market, ghost quotes: seq<Quote>, ghost markets: set<string>)
    returns (best: map<string, seq<Entry>>)
    requires IsBest(before, quotes, markets)
    ensures IsBest(best, quotes + MarketQuotes(b, m, |m.outcomes|), markets + {MarketKey(m)})
  {
    hide *;
    var key := MarketKey(m);
    best := before;
    NewMarket(best, quotes, markets, key);
    StartOfMarket(quotes, b, m);
    if key !in best {
      best := best[key := []];
    }
    for i := 0 to |m.outcomes|
      invariant key in best && IsBest(best, quotes + MarketQuotes(b, m, i), markets + {key})
    {
      var q := QuoteOf(b, m, m.outcomes[i]);
      OneMoreOutcome(quotes, b, m, i);
      NewQuote(best, quotes + MarketQuotes(b, m, i), markets + {key}, q);
      var updated := AddQuote(best[key], q);
      best := best[key := updated];
    }
  }

  method AddBook(before: map<string, seq<Entry>>, b: Bookmaker, ghost quotes: seq<Quote>, ghost markets: set<string>)
    returns (best: map<string, seq<Entry>>)
    requires IsBest(before, quotes, markets)
    ensures IsBest(best, quotes + BookQuotes(b, |b.markets|), markets + BookMarkets(b, |b.markets|))
  {
    hide *;
    best := before;
    StartOfBook(quotes, markets, b);
    for j := 0 to |b.markets|
      invariant IsBest(best, quotes + BookQuotes(b, j), markets + BookMarkets(b, j))
    {
      OneMoreMarket(quotes, markets, b, j);
      best := AddMarket(best, b, b.markets[j], quotes + BookQuotes(b, j), markets + BookMarkets(b, j));
    }
  }

  /** `_find_best_odds`: for each market named by some bookmaker, its best entries in order of first
      appearance. */
  method FindBestOdds(bookmakers: seq<Bookmaker>) returns (best: map<string, seq<Entry>>)
    ensures best.Keys == Markets(bookmakers, |bookmakers|)
    ensures forall m :: m in best ==> best[m] == Best(Quotes(bookmakers, |bookmakers|), m)
  {
    hide *;
    best := map[];
    NoBooks(bookmakers);
    for i := 0 to |bookmakers|
      invariant IsBest(best, Quotes(bookmakers, i), Markets(bookmakers, i))
    {
      OneMoreBook(bookmakers, i);
      best := AddBook(best, bookmakers[i], Quotes(bookmakers, i), Markets(bookmakers, i));
    }
    BestMeans(best, Quotes(bookmakers, |bookmakers|), Markets(bookmakers, |bookmakers|));
  }

  lemma NoBooks(bookmakers: seq<Bookmaker>)
    ensures IsBest(map[], Quotes(bookmakers, 0), Markets(bookmakers, 0))
  {
  }

  lemma BestMeans(best: map<string, seq<Entry>>, quotes: seq<Quote>, markets: set<string>)
    requires IsBest(best, quotes, markets)
    ensures best.Keys == markets && forall m :: m in best ==> best[m] == Best(quotes, m)
  {
  }
}
