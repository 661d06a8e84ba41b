/**
 * The static rule lists of the twenty concrete categories, transcribed
 * pattern by pattern. An alternation `(a|b)` becomes two consecutive
 * entries; an unescaped `.` is the wildcard `One(AnyChar)`.
 */
module RuleLists {
  import Transactions
  import opened Patterns
  import opened Matching

  /** A pattern searched without a date constraint, as in `p.search(transaction.receiver)`. */
  function Plain(p: Pattern): Rule { Rule(p, NoDate) }

  /** A list of patterns searched without date constraints. */
  function Plains(ps: seq<Pattern>): (rs: seq<Rule>)
    ensures |rs| == |ps|
    ensures forall i :: 0 <= i < |ps| ==> rs[i] == Rule(ps[i], NoDate)
  {
    seq(|ps|, i requires 0 <= i < |ps| => Plain(ps[i]))
  }

  /** A pattern that only counts on the given dates. */
  function OnDates(entries: seq<(Pattern, Transactions.Date)>): (rs: seq<Rule>)
    ensures |rs| == |entries|
    ensures forall i :: 0 <= i < |entries| ==> rs[i] == Rule(entries[i].0, OnDate(entries[i].1))
  {
    seq(|entries|, i requires 0 <= i < |entries| => Rule(entries[i].0, OnDate(entries[i].1)))
  }

  function Day(year: int, month: int, day: int): Transactions.Date
  {
    Transactions.Date(year, month, day)
  }

  function Repeat(piece: Piece, n: nat): seq<Piece>
  {
    if n == 0 then [] else [piece] + Repeat(piece, n - 1)
  }

  /** `^w$` where each `.` of w is unescaped, i.e. matches any character but a newline. */
  function WildDots(parts: seq<string>): seq<Piece>
  {
    if parts == [] then []
    else if |parts| == 1 then [Text(parts[0])]
    else [Text(parts[0]), One(AnyChar)] + WildDots(parts[1..])
  }

  function GroceriesRules(): (rs: seq<Rule>)
    ensures NeverRaises(rs)
  {
    Plains([ Pattern(true, [OptText("bck*"), Text("jumbo")]),
      Pattern(true, [OptText("bck*"), Text("kiosk")]),
      PrefixWord("albert heijn"),
      Pattern(true, [OptText("bck*"), Star(AnyChar), Text("ah to go"), SpaceOrEnd]),
      Exact("smak") ])
  }

  function TransportRules(): (rs: seq<Rule>)
    ensures NeverRaises(rs)
  {
    Plains([ Pattern(true, [Text("nlov")] + Repeat(One(LowerAlnum), 14) + [End]),
      Exact("uber"),
      Exact("ns groep iz ns reizigers"),
      PrefixSpace("greenwheels") ])
  }

  function InsuranceRules(): (rs: seq<Rule>)
    ensures NeverRaises(rs)
  {
    Plains([ Exact("abn amro schadev nv"),
      PrefixSpace("zilveren kruis"),
      PrefixSpace("allianz") ])
  }

  function HouseholdGoodsRules(): (rs: seq<Rule>)
    ensures NeverRaises(rs)
  {
    Plains([ Pattern(true, [Text("amazon "), Plus(LowerAlnum)]),
      Exact("ikea bv"),
      PrefixWord("hema"),
      PrefixWord("gamma"),            // ^gamma(?:$|-nl|\s), first and third branch
      Prefix("gamma-nl"),             // ^gamma(?:$|-nl|\s), second branch
      Exact("bol.com"),
      Pattern(true, [Text("rituals"), OptText("cosmetics"), End]),
      Pattern(true, [Text("action "), Plus(Digit), End]),
      PrefixSpace("lush"),
      Exact("coolblue"),
      Within("motel a miio"),
      Exact("patelnia.nl"),
      Prefix("klusbedrijf mrfix.nl b.v.") ])
    + [Rule(PrefixSpace("klarna bank"), OnDate(Day(2025, 1, 15)))]
    + Plains([ PrefixSpace("jysk"),
      Exact("de gouden sleutel"),
      PrefixSpace("actievloeren") ])
  }

  function RestaurantsRules(): (rs: seq<Rule>)
    ensures NeverRaises(rs)
  {
    Plains([ Exact("de cafe new babylon"),
      Prefix("coffee district"),
      Exact("uber eats"),
      Pattern(true, [OptText("bck*"), Text("bakers house"), End]),
      Pattern(true, [OptText("ccv*"), Text("starbucks"), One(Space)]),
      Pattern(true, [OptText("zettle_*"), Text("perron x coffe"), End]),
      Exact("mcturfmarkt"),
      Pattern(true, [OptText("zettle_*"), Text("house of tribe"), End]),
      Pattern(true, [OptText("zettle_*"), Text("coffee garden"), End]),
      Pattern(true, [OptText("zettle_*"), Text("circle lunchro"), End]),
      Pattern(true, [Text("joe"), Plus(Space), Text("the juice"), One(Space)]),
      Exact("coffee and coconuts"),
      Exact("chco den haag"),
      Exact("bk den haag spui"),
      Pattern(true, [OptText("cm.*"), Text("rdvr"), End]),
      Pattern(true, [OptText("ccv*"), Text("pqnl gelderland"), End]),
      Exact("the villy the roofs"),
      Exact("noodlebar herengracht"),
      Exact("madame croissant"),
      Exact("eetcafe el mamma booga"),
      Pattern(true, [OptText("ccv*"), Text("multivlaai"), One(Space)]),
      PrefixSpace("benji"),
      Pattern(true, [OptText("bck*"), Text("durak sweets"), End]),
      Pattern(true, [OptText("bck*"), Text("cafe van beek"), End]) ])
  }

  function GinaRules(): (rs: seq<Rule>)
    ensures NeverRaises(rs)
  {
    Plains([ Exact("pp_amsterdam"),
      PrefixSpace("zooplus"),
      Prefix("petsplace"),
      Pattern(true, [OptText("ccv*"), Text("dier van nu"), End]) ])
  }

  function HealthRules(): (rs: seq<Rule>)
    ensures NeverRaises(rs)
  {
    Plains([ Pattern(true, [Text("etos "), Plus(LowerAlnumDot)]),
      Exact("holland & barrett"),
      Exact("ondalinda"),
      PrefixSpace("newpharma"),
      PrefixSpace("dap bezuidenhout"),
      Exact("coderscourse.com"),
      Pattern(true, [OptText("ccv*"), Text("stichting dienstap"), End]),
      Pattern(false, [Text("apotheek"), One(Space)]) ])
  }

  function ClothesRules(): (rs: seq<Rule>)
    ensures NeverRaises(rs)
  {
    Plains([ Exact("shein.com"),
      PrefixSpace("schiesser"),
      Exact("h.m online"),
      Exact("globale"),
      Exact("otherstories"),
      PrefixSpace("nimara"),
      PrefixSpace("manfield") ])
  }

  function ChildRules(): (rs: seq<Rule>)
    ensures NeverRaises(rs)
  {
    Plains([ Pattern(true, [Text("baby-dump b"), OptText("."), Text("v"), OptText("."), End]),
      Prefix("babywinkel b.v."),
      PrefixWord("kruidvat"),
      Exact("uwv"),
      PrefixSpace("lovevery"),
      Exact("zeeman"),
      Prefix("simply colors nederland b.v.") ])
  }

  function TaxesRules(): (rs: seq<Rule>)
    ensures NeverRaises(rs)
  {
    Plains([ Exact("immigratie en naturalisatie dienst"),
      PrefixSpace("gemeente"),
      Within("belasting") ])
  }

  function DocumentsRules(): (rs: seq<Rule>)
    ensures NeverRaises(rs)
  {
    Plains([ Exact("publiekszaken"),
      PrefixSpace("lvov a.m."),
      Exact("printed.nl"),
      Exact("kudinova via tikkie") ])
  }

  function VVERules(): (rs: seq<Rule>)
    ensures NeverRaises(rs)
  {
    Plains([ Exact("vve la fenetre"),
      Prefix("vereniging van eigenaars la fen") ])
  }

  function BillsRules(): (rs: seq<Rule>)
    ensures NeverRaises(rs)
  {
    Plains([ Pattern(true, WildDots(["odido netherlands b", "v", ""]) + [End]),
      Exact("ziggo services bv"),
      Exact("eneco services"),
      Exact("magticom"),
      PrefixSpace("dunea duin") ])
  }

  function BanksRules(): (rs: seq<Rule>)
    ensures NeverRaises(rs)
  {
    Plains([ Pattern(true, WildDots(["abn amro bank n", "v", ""]) + [End]),
      Exact("kosten tweede rekeninghouder"),
      Exact("kosten oranjepakket") ])
  }

  function InternalTransfersRules(): (rs: seq<Rule>)
    ensures NeverRaises(rs)
  {
    Plains([ Exact("safe net"),
      Pattern(true, [Text("d"), OptText("."), Text(" krymova"), End]),
      Prefix("hr b lakatosh,mw d krymova"),
      Exact("mpay*dkrymova"),
      Exact("b lakatosh"),            // ^(b|bohdan) lakatosh$, first branch
      Exact("bohdan lakatosh"),       // ^(b|bohdan) lakatosh$, second branch
      Exact("necessities"),
      Pattern(true, [Text("revolut"), Star(AnyChar), Text("3740"), Star(AnyChar), End]),
      Exact("revolut bank uab"),
      Exact("oranje spaarrekening"),
      Exact("ideal top-up"),
      PrefixSpace("apple pay top-up"),
      Exact("moonpay"),
      Exact("interactive brokers ireland limited"),
      Exact("a lakatosh") ])
  }

  function ApartmentRules(): (rs: seq<Rule>)
    ensures NeverRaises(rs)
  {
    Plains([ Exact("ing hypotheken"),
      Exact("teilingen residence b.v.") ])
  }

  function IncomeRules(): (rs: seq<Rule>)
    ensures NeverRaises(rs)
  {
    Plains([ Exact("imc trading bv") ])
  }

  function ServicesRules(): (rs: seq<Rule>)
    ensures NeverRaises(rs)
  {
    Plains([ Exact("azarova consulting"),
      Exact("openai"),
      Exact("apple"),
      Exact("tilda"),
      Exact("spotify"),
      Exact("shopify"),
      Exact("ngrok.com"),
      Exact("google one"),
      Exact("audible"),
      Exact("youtube") ])
  }

  function OthersRules(): (rs: seq<Rule>)
    ensures NeverRaises(rs)
  {
    Plains([ Pattern(true, [OptText("ccv*"), Text("kroonenberg groep"), End]) ])
    + [Rule(Exact("albert"), DateTuple([Day(2025, 3, 8), Day(2025, 3, 9)]))]   // trip to Prague
    + Plains([ Exact("infobus.eu"),
      Exact("tunity") ])
    + [Rule(Exact("transfer to revolut user"), DateTuple([Day(2025, 4, 11), Day(2025, 4, 14)])),
       Rule(Exact("shared packaging"), DateTuple([Day(2025, 1, 15), Day(2025, 1, 27)]))]
    + OnDates([ (Pattern(true, WildDots(["postnl holding b", "v", ""]) + [End]), Day(2025, 2, 12)),
      (Exact("booking"), Day(2025, 3, 6)),
      (Pattern(true, WildDots(["hotel on booking", "com"]) + [End]), Day(2025, 3, 6)),
      (Exact("parfenchikova via tikkie"), Day(2025, 4, 19)),
      (Exact("aab inz tikkie"), Day(2025, 4, 30)),
      (Exact("den haag cs"), Day(2025, 1, 16)),
      (Exact("eye wish opticiens"), Day(2025, 3, 8)),
      (Exact("maghnouji via tikkie"), Day(2025, 3, 21)),
      (Exact("amsterdam zuid 4208-11"), Day(2025, 4, 22)),
      (Exact("to petr petrov"), Day(2025, 3, 17)),
      (Exact("swift transfer"), Day(2025, 4, 28)),
      (Prefix("dopravní podnik hlavního města prahy"), Day(2025, 3, 7)),
      (Exact("monastery garden"), Day(2025, 3, 7)),
      (Exact("u červeného páva"), Day(2025, 3, 7)),
      (Exact("bubbletee"), Day(2025, 3, 8)),
      (Exact("praha lodě"), Day(2025, 3, 8)),
      (Exact("trdelnik shop"), Day(2025, 3, 7)),
      (Exact("the cozy asian kitche"), Day(2025, 3, 9)),
      (Exact("restaurace malostranská beseda"), Day(2025, 3, 8)),
      (Exact("pražský hrad"), Day(2025, 3, 9)),
      (Exact("stolk via tikkie"), Day(2025, 2, 7)) ])
  }
}
