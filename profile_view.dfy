/** The settings screen's helpers: the preference options and how a selection of them
    is summarised, the multi-select toggle, the age label, and the grouping and
    ordering of currencies in the currency picker. The option emojis are the ones the
    source's byte sequences encode. */
module Settings {
  import opened Wrappers
  import opened Text
  import opened Currencies

  /** What a selected option shows: its emoji and its label (`caption`). */
  datatype OptionFace = OptionFace(emoji: string, caption: string)

  /** An emoji starts with a character outside ASCII. */
  predicate IsEmoji(s: string)
  {
    s != [] && s[0] > '\U{7F}'
  }

  datatype GoalOption = Retire | StartBusiness | Kids | Travel | House | Car | Emergency | Save
  {
    function RawValue(): string
    {
      match this
      case Retire => "retire"
      case StartBusiness => "business"
      case Kids => "kids"
      case Travel => "travel"
      case House => "house"
      case Car => "car"
      case Emergency => "emergency"
      case Save => "save"
    }

    function Face(): (f: OptionFace)
      ensures IsEmoji(f.emoji)
    {
      match this
      case Retire => OptionFace("\U{1F305}", "Retire earlier")
      case StartBusiness => OptionFace("\U{1F30D}", "Start new business")
      case Kids => OptionFace("\U{1F476}", "Raise kids")
      case Travel => OptionFace("\U{2708}\U{FE0F}", "Travel")
      case House => OptionFace("\U{1F3E0}", "Buy a house")
      case Car => OptionFace("\U{1F697}", "New car")
      case Emergency => OptionFace("\U{1F45B}", "Build emergency fund")
      case Save => OptionFace("\U{1F437}", "Save for better future")
    }
  }

  function GoalFromRaw(s: string): (r: Option<GoalOption>)
    ensures r.Some? ==> r.value.RawValue() == s
  {
    match s
    case "retire" => Some(Retire)
    case "business" => Some(StartBusiness)
    case "kids" => Some(Kids)
    case "travel" => Some(Travel)
    case "house" => Some(House)
    case "car" => Some(Car)
    case "emergency" => Some(Emergency)
    case "save" => Some(Save)
    case _ => None
  }

  datatype OccupationOption = Employed | Freelancer | OwnBusiness | Student | Sabbatical | Unemployed
  {
    function RawValue(): string
    {
      match this
      case Employed => "employed"
      case Freelancer => "freelancer"
      case OwnBusiness => "business"
      case Student => "student"
      case Sabbatical => "sabbatical"
      case Unemployed => "unemployed"
    }

    function Face(): (f: OptionFace)
      ensures IsEmoji(f.emoji)
    {
      match this
      case Employed => OptionFace("\U{1F4BC}", "Employed")
      case Freelancer => OptionFace("\U{1F4BB}", "Freelancer")
      case OwnBusiness => OptionFace("\U{1F3E2}", "Own Business")
      case Student => OptionFace("\U{1F393}", "Student")
      case Sabbatical => OptionFace("\U{2708}\U{FE0F}", "Sabbatical")
      case Unemployed => OptionFace("\U{1F3E0}", "Unemployed")
    }
  }

  function OccupationFromRaw(s: string): (r: Option<OccupationOption>)
    ensures r.Some? ==> r.value.RawValue() == s
  {
    match s
    case "employed" => Some(Employed)
    case "freelancer" => Some(Freelancer)
    case "business" => Some(OwnBusiness)
    case "student" => Some(Student)
    case "sabbatical" => Some(Sabbatical)
    case "unemployed" => Some(Unemployed)
    case _ => None
  }

  datatype HousingOption = Owner | RentApartment | RentHouse | Coliving
  {
    function RawValue(): string
    {
      match this
      case Owner => "owner"
      case RentApartment => "rent_apt"
      case RentHouse => "rent_house"
      case Coliving => "coliving"
    }

    function Face(): (f: OptionFace)
      ensures IsEmoji(f.emoji)
    {
      match this
      case Owner => OptionFace("\U{1F3E1}", "Own Property")
      case RentApartment => OptionFace("\U{1F3E2}", "Rental Apartment")
      case RentHouse => OptionFace("\U{1F3E0}", "Rental House/Villa")
      case Coliving => OptionFace("\U{1F465}", "Co-living / Shared")
    }
  }

  function HousingFromRaw(s: string): (r: Option<HousingOption>)
    ensures r.Some? ==> r.value.RawValue() == s
  {
    match s
    case "owner" => Some(Owner)
    case "rent_apt" => Some(RentApartment)
    case "rent_house" => Some(RentHouse)
    case "coliving" => Some(Coliving)
    case _ => None
  }

  datatype TransportOption = OwnCar | RentalCar | PublicTransport
  {
    function RawValue(): string
    {
      match this
      case OwnCar => "own_car"
      case RentalCar => "rental_car"
      case PublicTransport => "public_transport"
    }

    function Face(): (f: OptionFace)
      ensures IsEmoji(f.emoji)
    {
      match this
      case OwnCar => OptionFace("\U{1F697}", "Own Car")
      case RentalCar => OptionFace("\U{1F699}", "Rental Car")
      case PublicTransport => OptionFace("\U{1F68C}", "Public Transport")
    }
  }

  function TransportFromRaw(s: string): (r: Option<TransportOption>)
    ensures r.Some? ==> r.value.RawValue() == s
  {
    match s
    case "own_car" => Some(OwnCar)
    case "rental_car" => Some(RentalCar)
    case "public_transport" => Some(PublicTransport)
    case _ => None
  }

  datatype AgeOption = Under20 | Twenties | Thirties | Forties | FiftyPlus
  {
    function RawValue(): string
    {
      match this
      case Under20 => "under_20"
      case Twenties => "20s"
      case Thirties => "30s"
      case Forties => "40s"
      case FiftyPlus => "50_plus"
    }

    function Label(): string
    {
      match this
      case Under20 => "Under 20"
      case Twenties => "20s"
      case Thirties => "30s"
      case Forties => "40s"
      case FiftyPlus => "50+"
    }
  }

  function AgeFromRaw(s: string): (r: Option<AgeOption>)
    ensures r.Some? ==> r.value.RawValue() == s
  {
    match s
    case "under_20" => Some(Under20)
    case "20s" => Some(Twenties)
    case "30s" => Some(Thirties)
    case "40s" => Some(Forties)
    case "50_plus" => Some(FiftyPlus)
    case _ => None
  }

  /** Every option survives a trip through its raw value, and within one kind the raw
      values differ. */
  lemma OptionRawValuesRoundTrip(g: GoalOption, o: OccupationOption, h: HousingOption, t: TransportOption, a: AgeOption)
    ensures GoalFromRaw(g.RawValue()) == Some(g)
    ensures OccupationFromRaw(o.RawValue()) == Some(o)
    ensures HousingFromRaw(h.RawValue()) == Some(h)
    ensures TransportFromRaw(t.RawValue()) == Some(t)
    ensures AgeFromRaw(a.RawValue()) == Some(a)
  {
  }

  /** The age group as the settings row shows it: the option's label when the stored
      value is an age option's raw value, "Not Set" otherwise. */
  function AgeLabel(age: Option<string>): (r: string)
    ensures age.Some? && AgeFromRaw(age.value).Some? ==> r == AgeFromRaw(age.value).value.Label()
    ensures r == "Not Set" <==> age.None? || AgeFromRaw(age.value).None?
  {
    if age.Some? && AgeFromRaw(age.value).Some? then AgeFromRaw(age.value).value.Label() else "Not Set"
  }

  /** The option type `formatSelected` is called with. */
  datatype PreferenceKind = Goals | Occupations | Housings | Transports

  /** The first option of the kind whose raw value is `id`, as emoji and label. */
  function FaceOf(kind: PreferenceKind, id: string): (r: Option<OptionFace>)
    ensures r.Some? ==> IsEmoji(r.value.emoji)
  {
    match kind
    case Goals => if GoalFromRaw(id).Some? then Some(GoalFromRaw(id).value.Face()) else None
    case Occupations => if OccupationFromRaw(id).Some? then Some(OccupationFromRaw(id).value.Face()) else None
    case Housings => if HousingFromRaw(id).Some? then Some(HousingFromRaw(id).value.Face()) else None
    case Transports => if TransportFromRaw(id).Some? then Some(TransportFromRaw(id).value.Face()) else None
  }

  /** The number of raw values in `selected` that name an option of the kind. */
  function RecognisedCount(selected: seq<string>, kind: PreferenceKind): nat
  {
    if selected == [] then 0 else (if FaceOf(kind, selected[0]).Some? then 1 else 0) + RecognisedCount(selected[1..], kind)
  }

  /** The `compactMap` of `formatSelected`: the faces of the recognised raw values. */
  function Items(selected: seq<string>, kind: PreferenceKind): (r: seq<OptionFace>)
    ensures |r| == RecognisedCount(selected, kind)
    ensures forall f :: f in r ==> IsEmoji(f.emoji)
  {
    if selected == [] then []
    else
      var rest := Items(selected[1..], kind);
      match FaceOf(kind, selected[0])
      case Some(f) => [f] + rest
      case None => rest
  }

  /** Unrecognised raw values are dropped and the order of the rest is kept: the items
      of a selection are the items of its parts, one after the other. */
  lemma {:induction false} ItemsAppend(a: seq<string>, b: seq<string>, kind: PreferenceKind)
    ensures Items(a + b, kind) == Items(a, kind) + Items(b, kind)
  {
    if a != [] {
      var ab := a + b;
      assert ab[0] == a[0] && ab[1..] == a[1..] + b;
      ItemsAppend(a[1..], b, kind);
      match FaceOf(kind, a[0])
      case Some(f) =>
        assert Items(ab, kind) == [f] + Items(ab[1..], kind);
      case None =>
        assert Items(ab, kind) == Items(ab[1..], kind);
    } else {
      assert a + b == b;
    }
  }

  /** The emojis of the items, in order. */
  function Emojis(items: seq<OptionFace>): (r: seq<string>)
    ensures |r| == |items| && forall i :: 0 <= i < |items| ==> r[i] == items[i].emoji
  {
    seq(|items|, i requires 0 <= i < |items| => items[i].emoji)
  }

  /** `formatSelected`: "None" for an empty selection; the emoji and label of the one
      recognised option; otherwise the emojis of the recognised options joined by
      spaces. */
  function FormatSelected(selected: seq<string>, kind: PreferenceKind): (r: string)
    ensures selected == [] ==> r == "None"
  {
    if selected == [] then "None"
    else
      var items := Items(selected, kind);
      if |items| == 1 then items[0].emoji + " " + items[0].caption
      else Join(Emojis(items), " ")
  }

  /** "None" is the summary of the empty selection and of no other: a selection with
      no recognised option reads as the empty string, and one with some recognised
      option starts with an emoji. */
  lemma FormatSelectedNone(selected: seq<string>, kind: PreferenceKind)
    ensures FormatSelected(selected, kind) == "None" <==> selected == []
    ensures selected != [] && RecognisedCount(selected, kind) == 0 ==> FormatSelected(selected, kind) == ""
    ensures RecognisedCount(selected, kind) > 0 ==> IsEmoji(FormatSelected(selected, kind))
  {
    if selected != [] {
      var items := Items(selected, kind);
      if |items| > 1 {
        var parts := Emojis(items);
        assert IsEmoji(parts[0]);
        assert Join(parts, " ") == parts[0] + " " + Join(parts[1..], " ");
      }
      assert !IsEmoji("None");
    }
  }

  /** A selection with no recognised raw value has no items. */
  lemma {:induction false} ItemsNone(selected: seq<string>, kind: PreferenceKind)
    requires forall j :: 0 <= j < |selected| ==> FaceOf(kind, selected[j]).None?
    ensures Items(selected, kind) == []
  {
    if selected != [] {
      assert FaceOf(kind, selected[0]).None?;
      ItemsNone(selected[1..], kind);
    }
  }

  /** When every raw value is recognised, the items are their faces, one for one and in order. */
  lemma {:induction false} ItemsAllRecognised(selected: seq<string>, kind: PreferenceKind)
    requires forall j :: 0 <= j < |selected| ==> FaceOf(kind, selected[j]).Some?
    ensures Items(selected, kind) == seq(|selected|, j requires 0 <= j < |selected| => FaceOf(kind, selected[j]).value)
  {
    if selected != [] {
      ItemsAllRecognised(selected[1..], kind);
    }
  }

  /** When the raw value at `i` is the only recognised one, its face is the only item. */
  lemma ItemsOnly(selected: seq<string>, kind: PreferenceKind, i: nat)
    requires i < |selected| && FaceOf(kind, selected[i]).Some?
    requires forall j :: 0 <= j < |selected| && j != i ==> FaceOf(kind, selected[j]).None?
    ensures Items(selected, kind) == [FaceOf(kind, selected[i]).value]
  {
    var pre, mid, post := selected[..i], [selected[i]], selected[i + 1..];
    assert selected == pre + mid + post;
    ItemsAppend(pre + mid, post, kind);
    ItemsAppend(pre, mid, kind);
    ItemsNone(pre, kind);
    ItemsNone(post, kind);
    assert mid[1..] == [];
  }

  /** One recognised option, wherever it stands among unrecognised ones, is shown by
      its emoji and its label. */
  lemma FormatSelectedSingle(selected: seq<string>, kind: PreferenceKind, i: nat)
    requires i < |selected| && FaceOf(kind, selected[i]).Some?
    requires forall j :: 0 <= j < |selected| && j != i ==> FaceOf(kind, selected[j]).None?
    ensures FormatSelected(selected, kind) == FaceOf(kind, selected[i]).value.emoji + " " + FaceOf(kind, selected[i]).value.caption
  {
    ItemsOnly(selected, kind, i);
  }

  /** Several options, all recognised, are shown by their emojis alone, in the order
      of the selection and separated by single spaces. */
  lemma FormatSelectedSeveral(selected: seq<string>, kind: PreferenceKind)
    requires |selected| >= 2
    requires forall j :: 0 <= j < |selected| ==> FaceOf(kind, selected[j]).Some?
    ensures FormatSelected(selected, kind) ==
      Join(seq(|selected|, j requires 0 <= j < |selected| => FaceOf(kind, selected[j]).value.emoji), " ")
  {
    ItemsAllRecognised(selected, kind);
    var items := Items(selected, kind);
    assert Emojis(items) == seq(|selected|, j requires 0 <= j < |selected| => FaceOf(kind, selected[j]).value.emoji);
  }

  /** An unrecognised raw value does not change the summary of a non-empty selection,
      wherever it is inserted. */
  lemma FormatSelectedIgnoresUnrecognised(a: seq<string>, u: string, b: seq<string>, kind: PreferenceKind)
    requires FaceOf(kind, u).None? && a + b != []
    ensures FormatSelected(a + [u] + b, kind) == FormatSelected(a + b, kind)
  {
    var withU := a + [u];
    assert [u][1..] == [];
    assert Items([u], kind) == [];
    ItemsAppend(a, [u], kind);
    assert Items(withU, kind) == Items(a, kind);
    ItemsAppend(withU, b, kind);
    ItemsAppend(a, b, kind);
    SameItemsSameSummary(withU + b, a + b, kind);
  }

  /** The summary of a non-empty selection depends only on its items. */
  lemma SameItemsSameSummary(s1: seq<string>, s2: seq<string>, kind: PreferenceKind)
    requires s1 != [] && s2 != [] && Items(s1, kind) == Items(s2, kind)
    ensures FormatSelected(s1, kind) == FormatSelected(s2, kind)
  {
  }

  /** The selection after tapping the option with raw value `raw`. */
  function Toggled(selected: set<string>, raw: string): (r: set<string>)
    ensures raw in r <==> raw !in selected
    ensures r - {raw} == selected - {raw}
  {
    if raw in selected then selected - {raw} else selected + {raw}
  }

  /** Tapping the same option twice restores the selection. */
  lemma ToggledTwice(selected: set<string>, raw: string)
    ensures Toggled(Toggled(selected, raw), raw) == selected
  {
  }

  /** `MultiSelectView`'s local selection. */
  class MultiSelection {
    var localSelected: set<string>

    constructor (selected: set<string>)
      ensures localSelected == selected
    {
      localSelected := selected;
    }

    /** Tapping an option: a selected option is removed, any other inserted. */
    method Toggle(raw: string)
      modifies this
      ensures localSelected == Toggled(old(localSelected), raw)
    {
      if raw in localSelected {
        localSelected := localSelected - {raw};
      } else {
        localSelected := localSelected + {raw};
      }
    }
  }

  /** The currencies of `currencies` that lie in `continent`, in order. */
  function InContinent(currencies: seq<Currency>, continent: string): (r: seq<Currency>)
    ensures forall c :: c in r <==> c in currencies && c.continent == continent
    ensures |r| <= |currencies|
  {
    if currencies == [] then []
    else
      var rest := InContinent(currencies[1..], continent);
      if currencies[0].continent == continent then [currencies[0]] + rest else rest
  }

  function ContinentsOf(currencies: seq<Currency>): set<string>
  {
    set c | c in currencies :: c.continent
  }

  /** `groupedCurrencies`: the currencies by continent, each group in list order. */
  function GroupedCurrencies(currencies: seq<Currency>): (r: map<string, seq<Currency>>)
    ensures r.Keys == ContinentsOf(currencies)
  {
    map k | k in ContinentsOf(currencies) :: InContinent(currencies, k)
  }

  /** The grouping is a partition: each currency lies in the group of its own
      continent, each group holds only currencies of its continent from the list, and
      no group is empty. */
  lemma GroupedCurrenciesPartition(currencies: seq<Currency>)
    ensures forall c :: c in currencies ==> c.continent in GroupedCurrencies(currencies) && c in GroupedCurrencies(currencies)[c.continent]
    ensures forall k, c :: k in GroupedCurrencies(currencies) && c in GroupedCurrencies(currencies)[k] ==>
      c in currencies && c.continent == k
    ensures forall k :: k in GroupedCurrencies(currencies) ==> GroupedCurrencies(currencies)[k] != []
  {
    var g := GroupedCurrencies(currencies);
    forall k | k in g
      ensures g[k] != []
    {
      var c :| c in currencies && c.continent == k;
      assert c in g[k];
    }
  }

  /** The currencies whose label, identifier or continent contains the search text,
      as decided by `contains`, which stands for the locale-aware case-insensitive
      `localizedCaseInsensitiveContains`. */
  function Matching(currencies: seq<Currency>, search: string, contains: (string, string) -> bool): (r: seq<Currency>)
    ensures forall c :: c in r <==>
      c in currencies && (contains(c.name, search) || contains(c.id, search) || contains(c.continent, search))
    ensures |r| <= |currencies|
  {
    if currencies == [] then []
    else
      var c := currencies[0];
      var rest := Matching(currencies[1..], search, contains);
      if contains(c.name, search) || contains(c.id, search) || contains(c.continent, search) then [c] + rest else rest
  }

  /** `filteredCurrencies`: every currency when nothing is searched, else the matching
      ones in table order. */
  function FilteredCurrencies(search: string, contains: (string, string) -> bool): (r: seq<Currency>)
    ensures search == "" ==> r == AllCurrencies
    ensures search != "" ==> forall c :: c in r <==>
      c in AllCurrencies && (contains(c.name, search) || contains(c.id, search) || contains(c.continent, search))
  {
    if search == "" then AllCurrencies else Matching(AllCurrencies, search, contains)
  }

  /** `order.firstIndex(of: x)`, with `|order|` standing for a missing index; what the
      index means is stated by `IndexInFound`. */
  function IndexIn(order: seq<string>, x: string): (r: nat)
    ensures r <= |order|
  {
    if order == [] then 0
    else if order[0] == x then 0
    else 1 + IndexIn(order[1..], x)
  }

  /** The index is a real one exactly when `x` is in `order`, and then it is the first
      place where `x` occurs. */
  lemma {:induction false} IndexInFound(order: seq<string>, x: string)
    ensures IndexIn(order, x) < |order| <==> x in order
    ensures IndexIn(order, x) < |order| ==> order[IndexIn(order, x)] == x && x !in order[..IndexIn(order, x)]
  {
    if order != [] && order[0] != x {
      var tail := order[1..];
      IndexInFound(tail, x);
      assert x in order <==> x in tail;
      var i := IndexIn(tail, x);
      if i < |tail| {
        assert order[..i + 1] == [order[0]] + tail[..i];
      }
    }
  }

  /** The position of a continent in the picker's order; a continent it does not list
      comes after all listed ones (`Int.max` in the source). */
  function Rank(continent: string): (r: nat)
    ensures r <= |ContinentOrder|
    ensures r == |ContinentOrder| <==> continent !in ContinentOrder
  {
    IndexInFound(ContinentOrder, continent);
    IndexIn(ContinentOrder, continent)
  }

  /** The elements of `order` that are in `keys`, in the order of `order`. */
  function Listed(order: seq<string>, keys: set<string>): (r: seq<string>)
    ensures forall x :: x in r <==> x in keys && x in order
  {
    if order == [] then []
    else
      var rest := Listed(order[1..], keys);
      assert forall y :: y in order <==> y == order[0] || y in order[1..];
      if order[0] in keys then [order[0]] + rest else rest
  }

  predicate NoRepeats(s: seq<string>)
  {
    forall a, b :: 0 <= a < b < |s| ==> s[a] != s[b]
  }

  /** The elements of `r` sit at strictly increasing positions of `order`. */
  predicate IncreasingIn(order: seq<string>, r: seq<string>)
  {
    forall a, b :: 0 <= a < b < |r| ==> IndexIn(order, r[a]) < IndexIn(order, r[b]) < |order|
  }

  /** Filtering an order without repeats keeps strictly increasing positions. */
  lemma {:induction false} ListedOrdered(order: seq<string>, keys: set<string>)
    requires NoRepeats(order)
    ensures IncreasingIn(order, Listed(order, keys))
  {
    if order != [] {
      var tail := order[1..];
      assert NoRepeats(tail) by {
        forall a, b | 0 <= a < b < |tail|
          ensures tail[a] != tail[b]
        {
          assert tail[a] == order[a + 1] && tail[b] == order[b + 1];
        }
      }
      ListedOrdered(tail, keys);
      ListedStep(order, keys);
    }
  }

  /** One step of `ListedOrdered`: increasing positions in the tail carry over to the
      whole order, with the head in front when it is kept. */
  lemma ListedStep(order: seq<string>, keys: set<string>)
    requires NoRepeats(order) && order != []
    requires IncreasingIn(order[1..], Listed(order[1..], keys))
    ensures IncreasingIn(order, Listed(order, keys))
  {
    var rest := Listed(order[1..], keys);
    ShiftedIncreasing(order, rest);
    if order[0] in keys {
      assert Listed(order, keys) == [order[0]] + rest;
      assert IndexIn(order, order[0]) == 0;
      HeadThenIncreasing(order, order[0], rest);
    } else {
      assert Listed(order, keys) == rest;
    }
  }

  /** Positions increasing in the tail increase in the whole order too, and all come
      after the head. */
  lemma ShiftedIncreasing(order: seq<string>, rest: seq<string>)
    requires NoRepeats(order) && order != []
    requires forall y :: y in rest ==> y in order[1..]
    requires IncreasingIn(order[1..], rest)
    ensures IncreasingIn(order, rest)
    ensures forall k :: 0 <= k < |rest| ==> 0 < IndexIn(order, rest[k]) < |order|
  {
    var tail := order[1..];
    forall y | y in rest
      ensures 0 < IndexIn(order, y) == 1 + IndexIn(tail, y) < |order|
    {
      IndexInTail(order, y);
      IndexInFound(tail, y);
    }
    forall a, b | 0 <= a < b < |rest|
      ensures IndexIn(order, rest[a]) < IndexIn(order, rest[b]) < |order|
    {
      assert rest[a] in rest && rest[b] in rest;
    }
    forall k | 0 <= k < |rest|
      ensures 0 < IndexIn(order, rest[k]) < |order|
    {
      assert rest[k] in rest;
    }
  }

  /** An element at the first position in front of elements placed after it keeps
      positions increasing. */
  lemma HeadThenIncreasing(order: seq<string>, head: string, rest: seq<string>)
    requires IndexIn(order, head) == 0 < |order|
    requires IncreasingIn(order, rest)
    requires forall k :: 0 <= k < |rest| ==> 0 < IndexIn(order, rest[k]) < |order|
    ensures IncreasingIn(order, [head] + rest)
  {
    var r := [head] + rest;
    forall k | 0 < k < |r|
      ensures r[k] == rest[k - 1]
    {
    }
    forall a, b | 0 <= a < b < |r|
      ensures IndexIn(order, r[a]) < IndexIn(order, r[b]) < |order|
    {
      if a == 0 {
        assert r[a] == head;
      }
    }
  }

  /** Past a head that occurs nowhere else, positions are one more than in the tail. */
  lemma IndexInTail(order: seq<string>, y: string)
    requires NoRepeats(order) && order != [] && y in order[1..]
    ensures IndexIn(order, y) == 1 + IndexIn(order[1..], y)
  {
    var k :| 0 <= k < |order[1..]| && order[1..][k] == y;
    assert order[0] != order[k + 1];
  }

  lemma ContinentOrderNoRepeats()
    ensures NoRepeats(ContinentOrder)
  {
  }

  /** Some listing of the elements of a finite set, each once. */
  ghost function Listing(s: set<string>): (r: seq<string>)
    ensures forall x :: x in r <==> x in s
    ensures forall a, b :: 0 <= a < b < |r| ==> r[a] != r[b]
    decreases s
  {
    if s == {} then []
    else
      var x :| x in s;
      [x] + Listing(s - {x})
  }

  /** The elements of `keys` that `order` lists, in its order, then the others: every
      key once, by increasing position with the unlisted ones last. */
  lemma ListedThenOthersSorted(order: seq<string>, keys: set<string>)
    requires NoRepeats(order)
    ensures var r := SortedBy(order, keys);
      && (forall a, b :: 0 <= a < b < |r| ==> r[a] != r[b])
      && (forall a, b :: 0 <= a < b < |r| ==> IndexIn(order, r[a]) <= IndexIn(order, r[b]))
  {
    var listed := Listed(order, keys);
    var others := Listing(keys - set x | x in order);
    ListedOrdered(order, keys);
    var r := listed + others;
    forall a, b | 0 <= a < b < |r|
      ensures r[a] != r[b] && IndexIn(order, r[a]) <= IndexIn(order, r[b])
    {
      if b < |listed| {
        assert r[a] == listed[a] && r[b] == listed[b];
      } else {
        assert r[b] == others[b - |listed|] && r[b] in others;
        IndexInFound(order, r[b]);
        if a < |listed| {
          assert r[a] == listed[a] && r[a] in listed;
          IndexInFound(order, r[a]);
        } else {
          assert r[a] == others[a - |listed|] && r[a] in others;
        }
      }
    }
  }

  /** The keys that `order` lists, in its order, then the others in some order. */
  ghost function SortedBy(order: seq<string>, keys: set<string>): (r: seq<string>)
    ensures forall x :: x in r <==> x in keys
  {
    Listed(order, keys) + Listing(keys - set x | x in order)
  }

  /** `sortedContinents`: the grouping keys, listed continents in the picker's order
      and then the unlisted ones. The source sorts with a comparison that ties all
      unlisted continents, so their order among themselves is unspecified; the model
      picks one. */
  ghost function SortedContinents(keys: set<string>): (r: seq<string>)
    ensures forall x :: x in r <==> x in keys
  {
    SortedBy(ContinentOrder, keys)
  }

  /** The sorted keys are each key once, ordered by rank with the unlisted continents
      last. */
  lemma SortedContinentsSorted(keys: set<string>)
    ensures var r := SortedContinents(keys);
      && (forall a, b :: 0 <= a < b < |r| ==> r[a] != r[b])
      && (forall a, b :: 0 <= a < b < |r| ==> Rank(r[a]) <= Rank(r[b]))
  {
    ContinentOrderNoRepeats();
    ListedThenOthersSorted(ContinentOrder, keys);
  }
}
