/** The table of supported currencies and the lookups over it. */
module Currencies {
  import opened Wrappers

  /** A supported currency; `name` is the source's `label`. */
  datatype Currency = Currency(id: string, name: string, emoji: string, continent: string, timezones: seq<string>)
  {
    /** `displayLabel`: the flag, a space, the name. */
    function DisplayLabel(): (r: string)
      ensures |r| == |emoji| + 1 + |name|
      ensures r[..|emoji|] == emoji && r[|emoji|] == ' ' && r[|emoji| + 1..] == name
    {
      emoji + " " + name
    }
  }

  /** The seven continents under which the currency picker groups the table, in the
      order it lists them. */
  const ContinentOrder: seq<string> :=
    ["North America", "South America", "Europe", "Middle East", "Asia", "Oceania", "Africa"]

  /** The currencies listed under North America. */
  const NorthAmerica: seq<Currency> := [
    Currency("USD", "US Dollars", "\U{1F1FA}\U{1F1F8}", "North America", [
      "America/New_York", "America/Chicago", "America/Denver", "America/Los_Angeles",
      "America/Phoenix", "America/Anchorage", "Pacific/Honolulu", "America/Detroit",
      "America/Indianapolis", "America/Louisville", "America/Menominee"]),
    Currency("CAD", "Canadian Dollars", "\U{1F1E8}\U{1F1E6}", "North America", [
      "America/Toronto", "America/Vancouver", "America/Montreal", "America/Calgary",
      "America/Edmonton", "America/Winnipeg", "America/Halifax", "America/St_Johns"]),
    Currency("MXN", "Mexican Pesos", "\U{1F1F2}\U{1F1FD}", "North America", [
      "America/Mexico_City", "America/Cancun", "America/Merida", "America/Monterrey",
      "America/Mazatlan", "America/Chihuahua", "America/Tijuana"])
  ]

  /** The currencies listed under South America. */
  const SouthAmerica: seq<Currency> := [
    Currency("BRL", "Brazilian Real", "\U{1F1E7}\U{1F1F7}", "South America", [
      "America/Sao_Paulo", "America/Rio_Branco", "America/Manaus", "America/Fortaleza",
      "America/Recife", "America/Bahia"]),
    Currency("ARS", "Argentine Peso", "\U{1F1E6}\U{1F1F7}", "South America", [
      "America/Argentina/Buenos_Aires", "America/Argentina/Cordoba",
      "America/Argentina/Mendoza"]),
    Currency("CLP", "Chilean Pesos", "\U{1F1E8}\U{1F1F1}", "South America", ["America/Santiago"]),
    Currency("COP", "Colombian Peso", "\U{1F1E8}\U{1F1F4}", "South America", ["America/Bogota"])
  ]

  /** The currencies listed under Europe. */
  const Europe: seq<Currency> := [
    Currency("EUR", "Euro", "\U{1F1EA}\U{1F1FA}", "Europe", [
      "Europe/Berlin", "Europe/Paris", "Europe/Rome", "Europe/Madrid", "Europe/Amsterdam",
      "Europe/Brussels", "Europe/Vienna", "Europe/Prague", "Europe/Budapest",
      "Europe/Warsaw", "Europe/Helsinki", "Europe/Stockholm", "Europe/Copenhagen",
      "Europe/Oslo", "Europe/Zurich"]),
    Currency("GBP", "British Pounds", "\U{1F1EC}\U{1F1E7}", "Europe", [
      "Europe/London", "Europe/Belfast", "Europe/Dublin"]),
    Currency("CHF", "Swiss Francs", "\U{1F1E8}\U{1F1ED}", "Europe", ["Europe/Zurich"]),
    Currency("RUB", "Russian Rubles", "\U{1F1F7}\U{1F1FA}", "Europe", [
      "Europe/Moscow", "Asia/Yekaterinburg", "Asia/Novosibirsk", "Asia/Krasnoyarsk",
      "Asia/Irkutsk", "Asia/Yakutsk", "Asia/Vladivostok", "Asia/Magadan", "Asia/Kamchatka"]),
    Currency("TRY", "Turkish Lira", "\U{1F1F9}\U{1F1F7}", "Europe", ["Europe/Istanbul"]),
    Currency("SEK", "Swedish Krona", "\U{1F1F8}\U{1F1EA}", "Europe", ["Europe/Stockholm"]),
    Currency("NOK", "Norwegian Krone", "\U{1F1F3}\U{1F1F4}", "Europe", ["Europe/Oslo"]),
    Currency("DKK", "Danish Krone", "\U{1F1E9}\U{1F1F0}", "Europe", ["Europe/Copenhagen"]),
    Currency("PLN", "Polish Zloty", "\U{1F1F5}\U{1F1F1}", "Europe", ["Europe/Warsaw"]),
    Currency("CZK", "Czech Koruna", "\U{1F1E8}\U{1F1FF}", "Europe", ["Europe/Prague"]),
    Currency("HUF", "Hungarian Forint", "\U{1F1ED}\U{1F1FA}", "Europe", ["Europe/Budapest"])
  ]

  /** The currencies listed under Middle East. */
  const MiddleEast: seq<Currency> := [
    Currency("AED", "UAE Dirham", "\U{1F1E6}\U{1F1EA}", "Middle East", ["Asia/Dubai"]),
    Currency("SAR", "Saudi Riyal", "\U{1F1F8}\U{1F1E6}", "Middle East", ["Asia/Riyadh"]),
    Currency("QAR", "Qatari Riyal", "\U{1F1F6}\U{1F1E6}", "Middle East", ["Asia/Qatar"]),
    Currency("KWD", "Kuwaiti Dinar", "\U{1F1F0}\U{1F1FC}", "Middle East", ["Asia/Kuwait"]),
    Currency("OMR", "Omani Rial", "\U{1F1F4}\U{1F1F2}", "Middle East", ["Asia/Muscat"])
  ]

  /** The currencies listed under Asia. */
  const Asia: seq<Currency> := [
    Currency("JPY", "Japanese Yen", "\U{1F1EF}\U{1F1F5}", "Asia", ["Asia/Tokyo", "Asia/Osaka"]),
    Currency("CNY", "Chinese Yuan", "\U{1F1E8}\U{1F1F3}", "Asia", [
      "Asia/Shanghai", "Asia/Beijing", "Asia/Chongqing", "Asia/Harbin", "Asia/Urumqi"]),
    Currency("INR", "Indian Rupees", "\U{1F1EE}\U{1F1F3}", "Asia", [
      "Asia/Kolkata", "Asia/Mumbai", "Asia/Delhi"]),
    Currency("KRW", "South Korean Won", "\U{1F1F0}\U{1F1F7}", "Asia", ["Asia/Seoul"]),
    Currency("SGD", "Singapore Dollars", "\U{1F1F8}\U{1F1EC}", "Asia", ["Asia/Singapore"]),
    Currency("HKD", "Hong Kong Dollars", "\U{1F1ED}\U{1F1F0}", "Asia", ["Asia/Hong_Kong"]),
    Currency("TWD", "New Taiwan Dollar", "\U{1F1F9}\U{1F1FC}", "Asia", ["Asia/Taipei"]),
    Currency("MYR", "Malaysian Ringgit", "\U{1F1F2}\U{1F1FE}", "Asia", ["Asia/Kuala_Lumpur"]),
    Currency("THB", "Thai Baht", "\U{1F1F9}\U{1F1ED}", "Asia", ["Asia/Bangkok"]),
    Currency("IDR", "Indonesian Rupiah", "\U{1F1EE}\U{1F1E9}", "Asia", [
      "Asia/Jakarta", "Asia/Pontianak", "Asia/Makassar", "Asia/Jayapura"]),
    Currency("PHP", "Philippine Peso", "\U{1F1F5}\U{1F1ED}", "Asia", ["Asia/Manila"]),
    Currency("VND", "Vietnamese Dong", "\U{1F1FB}\U{1F1F3}", "Asia", ["Asia/Ho_Chi_Minh"])
  ]

  /** The currencies listed under Oceania. */
  const Oceania: seq<Currency> := [
    Currency("AUD", "Australian Dollars", "\U{1F1E6}\U{1F1FA}", "Oceania", [
      "Australia/Sydney", "Australia/Melbourne", "Australia/Brisbane", "Australia/Perth",
      "Australia/Adelaide", "Australia/Darwin", "Australia/Hobart"]),
    Currency("NZD", "New Zealand Dollars", "\U{1F1F3}\U{1F1FF}", "Oceania", [
      "Pacific/Auckland", "Pacific/Chatham"])
  ]

  /** The currencies listed under Africa. */
  const Africa: seq<Currency> := [
    Currency("ZAR", "South African Rand", "\U{1F1FF}\U{1F1E6}", "Africa", ["Africa/Johannesburg"]),
    Currency("EGP", "Egyptian Pound", "\U{1F1EA}\U{1F1EC}", "Africa", ["Africa/Cairo"])
  ]

  /** `allCurrencies`: the table, continent by continent. */
  const AllCurrencies: seq<Currency> := NorthAmerica + SouthAmerica + Europe + MiddleEast + Asia + Oceania + Africa

  /** The identifiers of `table`, in order. */
  function Ids(table: seq<Currency>): (r: seq<string>)
    ensures |r| == |table| && forall i :: 0 <= i < |table| ==> r[i] == table[i].id
  {
    seq(|table|, i requires 0 <= i < |table| => table[i].id)
  }

  /** No identifier occurs twice. */
  predicate Distinct(ids: seq<string>)
  {
    forall i, j :: 0 <= i < j < |ids| ==> ids[i] != ids[j]
  }

  /** No identifier occurs in both lists. */
  predicate Disjoint(a: seq<string>, b: seq<string>)
  {
    forall x :: x in a ==> x !in b
  }

  lemma DisjointAppend(a1: seq<string>, a2: seq<string>, b: seq<string>)
    requires Disjoint(a1, b) && Disjoint(a2, b)
    ensures Disjoint(a1 + a2, b)
  {
  }

  lemma DisjointAppendRight(a: seq<string>, b1: seq<string>, b2: seq<string>)
    requires Disjoint(a, b1) && Disjoint(a, b2)
    ensures Disjoint(a, b1 + b2)
  {
  }

  /** Two lists without repeats and without a common element make one list without
      repeats. */
  lemma DistinctAppend(a: seq<string>, b: seq<string>)
    requires Distinct(a) && Distinct(b) && Disjoint(a, b)
    ensures Distinct(a + b)
  {
    forall i, j | 0 <= i < j < |a + b|
      ensures (a + b)[i] != (a + b)[j]
    {
      if i < |a| <= j {
        assert (a + b)[i] in a && (a + b)[j] in b;
      }
    }
  }

  const NorthAmericaCodes: seq<string> := ["USD", "CAD", "MXN"]

  lemma NorthAmericaListed()
    ensures Ids(NorthAmerica) == NorthAmericaCodes
    ensures forall c :: c in NorthAmerica ==> c.continent == "North America"
  {
  }

  const SouthAmericaCodes: seq<string> := ["BRL", "ARS", "CLP", "COP"]

  lemma SouthAmericaListed()
    ensures Ids(SouthAmerica) == SouthAmericaCodes
    ensures forall c :: c in SouthAmerica ==> c.continent == "South America"
  {
  }

  const EuropeCodes: seq<string> := ["EUR", "GBP", "CHF", "RUB", "TRY", "SEK", "NOK", "DKK", "PLN", "CZK", "HUF"]

  lemma EuropeListed()
    ensures Ids(Europe) == EuropeCodes
    ensures forall c :: c in Europe ==> c.continent == "Europe"
  {
  }

  const MiddleEastCodes: seq<string> := ["AED", "SAR", "QAR", "KWD", "OMR"]

  lemma MiddleEastListed()
    ensures Ids(MiddleEast) == MiddleEastCodes
    ensures forall c :: c in MiddleEast ==> c.continent == "Middle East"
  {
  }

  const AsiaCodes: seq<string> := ["JPY", "CNY", "INR", "KRW", "SGD", "HKD", "TWD", "MYR", "THB", "IDR", "PHP", "VND"]

  lemma AsiaListed()
    ensures Ids(Asia) == AsiaCodes
    ensures forall c :: c in Asia ==> c.continent == "Asia"
  {
  }

  const OceaniaCodes: seq<string> := ["AUD", "NZD"]

  lemma OceaniaListed()
    ensures Ids(Oceania) == OceaniaCodes
    ensures forall c :: c in Oceania ==> c.continent == "Oceania"
  {
  }

  const AfricaCodes: seq<string> := ["ZAR", "EGP"]

  lemma AfricaListed()
    ensures Ids(Africa) == AfricaCodes
    ensures forall c :: c in Africa ==> c.continent == "Africa"
  {
  }

  /** The first currency of `table` with the identifier, if there is one. */
  function FirstWithId(table: seq<Currency>, id: string): (r: Option<Currency>)
    ensures r.Some? ==> r.value in table && r.value.id == id
    ensures r.Some? ==> exists i :: 0 <= i < |table| && table[i] == r.value && forall j :: 0 <= j < i ==> table[j].id != id
    ensures r.None? <==> forall c :: c in table ==> c.id != id
  {
    if table == [] then None
    else if table[0].id == id then Some(table[0])
    else
      var r := FirstWithId(table[1..], id);
      if r.Some? then
        var i :| 0 <= i < |table[1..]| && table[1..][i] == r.value && forall j :: 0 <= j < i ==> table[1..][j].id != id;
        assert table[i + 1] == r.value && forall j :: 0 <= j < i + 1 ==> table[j].id != id;
        r
      else r
  }

  /** `find(by:)`: no identifier finds nothing; an identifier finds the first table
      entry that carries it, and nothing when no entry does. */
  function Find(id: Option<string>): (r: Option<Currency>)
    ensures id.None? ==> r.None?
    ensures id.Some? ==> r == FirstWithId(AllCurrencies, id.value)
  {
    if id.None? then None else FirstWithId(AllCurrencies, id.value)
  }

  /** In a table with distinct identifiers, an entry's identifier finds that entry. */
  lemma {:induction false} FirstWithIdFindsEntry(table: seq<Currency>, i: nat)
    requires Distinct(Ids(table)) && i < |table|
    ensures FirstWithId(table, table[i].id) == Some(table[i])
    decreases i
  {
    if i > 0 {
      assert table[0].id != table[i].id by {
        assert Ids(table)[0] != Ids(table)[i];
      }
      var rest := table[1..];
      assert Distinct(Ids(rest)) by {
        forall a, b | 0 <= a < b < |rest|
          ensures Ids(rest)[a] != Ids(rest)[b]
        {
          assert Ids(table)[a + 1] != Ids(table)[b + 1];
        }
      }
      FirstWithIdFindsEntry(rest, i - 1);
    }
  }

  /** The identifiers of two tables one after the other. */
  lemma IdsAppend(a: seq<Currency>, b: seq<Currency>)
    ensures Ids(a + b) == Ids(a) + Ids(b)
  {
  }

  /** The table's identifiers, continent by continent. */
  lemma TableIds()
    ensures Ids(AllCurrencies) == NorthAmericaCodes + SouthAmericaCodes + EuropeCodes + MiddleEastCodes
                                  + AsiaCodes + OceaniaCodes + AfricaCodes
  {
    NorthAmericaListed(); SouthAmericaListed(); EuropeListed(); MiddleEastListed();
    AsiaListed(); OceaniaListed(); AfricaListed();
    var a := NorthAmerica + SouthAmerica;
    IdsAppend(NorthAmerica, SouthAmerica);
    IdsAppend(a, Europe);
    IdsAppend(a + Europe, MiddleEast);
    IdsAppend(a + Europe + MiddleEast, Asia);
    IdsAppend(a + Europe + MiddleEast + Asia, Oceania);
    IdsAppend(a + Europe + MiddleEast + Asia + Oceania, Africa);
  }

  lemma WesternCodesDistinct()
    ensures Distinct(NorthAmericaCodes) && Distinct(SouthAmericaCodes) && Distinct(EuropeCodes)
    ensures Disjoint(NorthAmericaCodes, SouthAmericaCodes)
    ensures Disjoint(NorthAmericaCodes + SouthAmericaCodes, EuropeCodes)
  {
    EuropeCodesDistinct();
    AmericasApart();
    DisjointAppend(NorthAmericaCodes, SouthAmericaCodes, EuropeCodes);
  }

  lemma AmericasApart()
    ensures Distinct(NorthAmericaCodes) && Distinct(SouthAmericaCodes)
    ensures Disjoint(NorthAmericaCodes, SouthAmericaCodes)
    ensures Disjoint(NorthAmericaCodes, EuropeCodes) && Disjoint(SouthAmericaCodes, EuropeCodes)
  {
  }

  lemma EuropeCodesDistinct()
    ensures Distinct(EuropeCodes)
  {
  }

  lemma AsiaCodesDistinct()
    ensures Distinct(AsiaCodes)
  {
  }

  lemma EasternCodesDistinct()
    ensures Distinct(MiddleEastCodes) && Distinct(AsiaCodes) && Distinct(OceaniaCodes) && Distinct(AfricaCodes)
    ensures Disjoint(MiddleEastCodes, AsiaCodes)
    ensures Disjoint(MiddleEastCodes + AsiaCodes, OceaniaCodes)
    ensures Disjoint(MiddleEastCodes + AsiaCodes + OceaniaCodes, AfricaCodes)
  {
    AsiaCodesDistinct();
    MiddleEastApartFromAsia();
    SmallEasternChunksApart();
    DisjointAppend(MiddleEastCodes, AsiaCodes, OceaniaCodes);
    DisjointAppend(MiddleEastCodes, AsiaCodes, AfricaCodes);
    DisjointAppend(MiddleEastCodes + AsiaCodes, OceaniaCodes, AfricaCodes);
  }

  lemma MiddleEastApartFromAsia()
    ensures Disjoint(MiddleEastCodes, AsiaCodes)
  {
  }

  lemma SmallEasternChunksApart()
    ensures Distinct(MiddleEastCodes) && Distinct(OceaniaCodes) && Distinct(AfricaCodes)
    ensures Disjoint(MiddleEastCodes, OceaniaCodes) && Disjoint(AsiaCodes, OceaniaCodes)
    ensures Disjoint(MiddleEastCodes, AfricaCodes) && Disjoint(AsiaCodes, AfricaCodes)
    ensures Disjoint(OceaniaCodes, AfricaCodes)
  {
  }

  lemma NorthAmericaApartFromEast()
    ensures Disjoint(NorthAmericaCodes, MiddleEastCodes + AsiaCodes + OceaniaCodes + AfricaCodes)
  {
  }

  lemma SouthAmericaApartFromEast()
    ensures Disjoint(SouthAmericaCodes, MiddleEastCodes + AsiaCodes + OceaniaCodes + AfricaCodes)
  {
  }

  lemma EuropeApartFromAsia()
    ensures Disjoint(EuropeCodes, AsiaCodes)
  {
  }

  lemma EuropeApartFromEast()
    ensures Disjoint(EuropeCodes, MiddleEastCodes + AsiaCodes + OceaniaCodes + AfricaCodes)
  {
    EuropeApartFromAsia();
    assert Disjoint(EuropeCodes, MiddleEastCodes);
    DisjointAppendRight(EuropeCodes, MiddleEastCodes, AsiaCodes);
    assert Disjoint(EuropeCodes, OceaniaCodes + AfricaCodes);
    DisjointAppendRight(EuropeCodes, MiddleEastCodes + AsiaCodes, OceaniaCodes + AfricaCodes);
    assert MiddleEastCodes + AsiaCodes + (OceaniaCodes + AfricaCodes)
      == MiddleEastCodes + AsiaCodes + OceaniaCodes + AfricaCodes;
  }

  /** The table's identifiers are distinct. */
  lemma AllCurrenciesDistinct()
    ensures Distinct(Ids(AllCurrencies))
  {
    TableIds();
    WesternCodesDistinct();
    EasternCodesDistinct();
    NorthAmericaApartFromEast();
    SouthAmericaApartFromEast();
    DisjointAppend(NorthAmericaCodes, SouthAmericaCodes, MiddleEastCodes + AsiaCodes + OceaniaCodes + AfricaCodes);
    EuropeApartFromEast();
    var americas := NorthAmericaCodes + SouthAmericaCodes;
    var west := americas + EuropeCodes;
    var east := MiddleEastCodes + AsiaCodes + OceaniaCodes + AfricaCodes;
    DistinctAppend(NorthAmericaCodes, SouthAmericaCodes);
    DistinctAppend(americas, EuropeCodes);
    DistinctAppend(MiddleEastCodes, AsiaCodes);
    DistinctAppend(MiddleEastCodes + AsiaCodes, OceaniaCodes);
    DistinctAppend(MiddleEastCodes + AsiaCodes + OceaniaCodes, AfricaCodes);
    DisjointAppend(americas, EuropeCodes, east);
    DistinctAppend(west, east);
    assert west + east == NorthAmericaCodes + SouthAmericaCodes + EuropeCodes + MiddleEastCodes
                          + AsiaCodes + OceaniaCodes + AfricaCodes;
  }

  /** Every currency of the table is found by its identifier. */
  lemma FindFindsEveryCurrency(i: nat)
    requires i < |AllCurrencies|
    ensures Find(Some(AllCurrencies[i].id)) == Some(AllCurrencies[i])
  {
    AllCurrenciesDistinct();
    FirstWithIdFindsEntry(AllCurrencies, i);
  }

  /** Every currency of the table lies in one of the seven listed continents. */
  lemma ContinentsListed()
    ensures forall c :: c in AllCurrencies ==> c.continent in ContinentOrder
  {
    NorthAmericaListed(); SouthAmericaListed(); EuropeListed(); MiddleEastListed();
    AsiaListed(); OceaniaListed(); AfricaListed();
    forall c | c in AllCurrencies
      ensures c.continent in ContinentOrder
    {
      assert c in NorthAmerica || c in SouthAmerica || c in Europe || c in MiddleEast
          || c in Asia || c in Oceania || c in Africa;
    }
  }
}
