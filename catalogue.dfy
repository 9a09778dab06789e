/**
 * The shipped service catalogue (constants/services.ts): eight categories and the services of
 * each, which the service-management screen starts from.
 */
module Catalogue {
  import opened Common
  import opened Salon
  import opened ServiceManagement

  type Pos = n: int | n > 0 witness 1

  /** One catalogue entry without its category; prices and durations are positive by type. */
  datatype Entry = Entry(id: string, name: string, price: Pos, duration: Pos, description: Option<string>)

  /** The services of one category, in the order they are listed. */
  function Block(c: ServiceCategory, entries: seq<Entry>): (r: seq<Service>)
    ensures |r| == |entries|
    ensures forall i :: 0 <= i < |r| ==>
              r[i] == Service(entries[i].id, entries[i].name, c, entries[i].price, entries[i].duration, entries[i].description)
  {
    if entries == [] then []
    else
      var e := entries[0];
      [Service(e.id, e.name, c, e.price, e.duration, e.description)] + Block(c, entries[1..])
  }

  /** `serviceCategories`. */
  const Categories: seq<ServiceCategory> := [
    ServiceCategory("women-intimate", "Női intim kezelések", "\U{1F48E}"),
    ServiceCategory("women-body", "Női testrészek", "\U{1F338}"),
    ServiceCategory("women-face", "Női arc kezelések", "✨"),
    ServiceCategory("men-intimate", "Férfi intim kezelések", "\U{1F468}"),
    ServiceCategory("men-body", "Férfi testrészek", "\U{1F4AA}"),
    ServiceCategory("men-face", "Férfi arc kezelések", "\U{1F9D4}"),
    ServiceCategory("packages-women", "Női csomagok", "\U{1F381}"),
    ServiceCategory("packages-men", "Férfi csomagok", "\U{1F4E6}")
  ]

  const Entries0: seq<Entry> := [
    Entry("1", "Intim Hollywood / Brazil", 8500, 20, None),
    Entry("2", "Intim csak elől", 7500, 20, None),
    Entry("3", "Intim részleges", 7800, 20, None),
    Entry("4", "Bikini vonal", 4900, 15, None),
    Entry("5", "Bikinivonal vastag", 5900, 20, None),
    Entry("6", "Fenék teljes (belső, külső ív)", 5500, 15, None),
    Entry("7", "Fenék belső ív", 3200, 10, None),
    Entry("8", "Fenék külső ív I. (arpofák)", 4300, 10, None),
    Entry("9", "Fenék külső ív II. (fél fenék)", 3200, 10, None)
  ]

  const Entries1: seq<Entry> := [
    Entry("10", "Hascsík / köldökcsík", 2200, 15, None),
    Entry("11", "Has teljes", 3300, 15, None),
    Entry("12", "Hónalj", 3200, 10, None),
    Entry("13", "Mellbimbó", 2000, 5, None),
    Entry("14", "Hát teljes", 4300, 25, None),
    Entry("15", "Deréktáj", 2800, 10, None),
    Entry("16", "Felső hát", 4000, 15, None),
    Entry("17", "Nyak", 2400, 10, None),
    Entry("18", "Dekoltázs", 3400, 15, None),
    Entry("19", "Tarkó", 2200, 5, None),
    Entry("25", "Kar könyékig / Alkar", 4000, 15, None),
    Entry("26", "Kar 3/4", 4200, 15, None),
    Entry("27", "Felkar", 4000, 15, None),
    Entry("28", "Kar teljes", 5000, 20, None),
    Entry("29", "Kézfej + kézujjak", 2100, 5, None),
    Entry("30", "Comb", 5200, 25, None),
    Entry("31", "Lábszár", 5200, 20, None),
    Entry("32", "Láb teljes", 8000, 35, None),
    Entry("33", "Láb 3/4", 7500, 30, None),
    Entry("34", "Lábfej + lábujjak", 2300, 5, None),
    Entry("35", "Részleges terület", 2300, 5, None)
  ]

  const Entries2: seq<Entry> := [
    Entry("20", "Bajusz", 2600, 10, None),
    Entry("21", "Szemöldök", 2500, 15, None),
    Entry("22", "Áll", 2500, 10, None),
    Entry("23", "Pajesz", 2500, 10, None),
    Entry("24", "Arc 2 oldala", 2800, 10, None)
  ]

  const Entries3: seq<Entry> := [
    Entry("70", "Férfi intim teljes", 9500, 30, None),
    Entry("71", "Férfi intim részleges", 7500, 20, None),
    Entry("72", "Férfi fenék teljes", 6500, 20, None)
  ]

  const Entries4: seq<Entry> := [
    Entry("36", "Kar könyékig / Alkar", 5000, 20, None),
    Entry("37", "Kar 3/4", 5200, 25, None),
    Entry("38", "Felkar", 5000, 20, None),
    Entry("39", "Kar teljes", 6000, 25, None),
    Entry("40", "Kézfej + kézujjak", 2500, 10, None),
    Entry("41", "Comb", 5500, 30, None),
    Entry("42", "Lábszár", 5500, 35, None),
    Entry("43", "Láb teljes", 9600, 40, None),
    Entry("44", "Láb 3/4", 9000, 35, None),
    Entry("45", "Lábfej + lábujjak", 2700, 10, None),
    Entry("46", "Részleges terület", 2600, 10, None),
    Entry("47", "Has teljes", 4300, 20, None),
    Entry("48", "Hónalj", 3200, 15, None),
    Entry("49", "Hát teljes", 8900, 25, None),
    Entry("50", "Deréktáj", 3900, 20, None),
    Entry("51", "Felső hát", 5800, 20, None),
    Entry("52", "Mellkas", 6500, 25, None),
    Entry("55", "Nyak és váll", 5200, 15, None)
  ]

  const Entries5: seq<Entry> := [
    Entry("53", "Szemöldök", 2900, 20, None),
    Entry("54", "Tarkó", 2600, 10, None),
    Entry("73", "Bajusz", 3000, 15, None),
    Entry("74", "Szakáll kontúr", 3500, 20, None),
    Entry("75", "Orr szőrzet", 2200, 10, None)
  ]

  const Entries6: seq<Entry> := [
    Entry("56", "Intim csomag", 11000, 35, Some("Intim Hollywood / Brazil + Hónalj")),
    Entry("57", "Végtag csomag", 12200, 50, Some("Teljes Kar + Teljes Láb")),
    Entry("58", "Teljes test csomag", 31500, 90, Some("Intim Hollywood / Brazil + Hónalj + Hascsík + Fél fenék + Teljes Láb + Teljes Kar + Szemöldök + Bajusz")),
    Entry("59", "Arc csomag", 7000, 30, Some("Szemöldök + Bajusz + Áll")),
    Entry("60", "Kedvenc csomag", 18500, 60, Some("Intim Hollywood / Brazil + Fél fenék + Teljes Láb")),
    Entry("61", "Alapcsomag", 15300, 60, Some("Teljes láb + Bikini vonal + Hónalj")),
    Entry("62", "Gyors csomag", 17000, 50, Some("Alkar + Lábszár + Intim Hollywood / Brazil"))
  ]

  const Entries7: seq<Entry> := [
    Entry("63", "Felsőtest csomag", 22100, 90, Some("Teljes hát + Mellkas + Has + Hónalj")),
    Entry("64", "Hát csomag", 15000, 60, Some("Teljes hát + Szemöldök + Hónalj")),
    Entry("76", "Végtag csomag", 14500, 65, Some("Teljes Kar + Teljes Láb")),
    Entry("77", "Arc csomag", 8500, 45, Some("Szemöldök + Bajusz + Szakáll kontúr + Tarkó"))
  ]

  /** `services`: the blocks of the eight categories, in their listed order. */
  const Services: seq<Service> :=
    Block(Categories[0], Entries0) + Block(Categories[1], Entries1) + Block(Categories[2], Entries2) +
    Block(Categories[3], Entries3) + Block(Categories[4], Entries4) + Block(Categories[5], Entries5) +
    Block(Categories[6], Entries6) + Block(Categories[7], Entries7)

  /** Both invariants of the service screen hold for a concatenation when they hold for each part. */
  lemma ValidAppend(a: seq<Service>, b: seq<Service>, categories: seq<ServiceCategory>)
    requires Consistent(a, categories) && Positive(a)
    requires Consistent(b, categories) && Positive(b)
    ensures Consistent(a + b, categories) && Positive(a + b)
  {
    forall i | 0 <= i < |a + b|
      ensures (a + b)[i].category in categories && (a + b)[i].price > 0 && (a + b)[i].duration > 0
    {
      if i >= |a| {
        assert (a + b)[i] == b[i - |a|];
      }
    }
  }

  /** A block of a listed category meets both invariants. */
  lemma BlockValid(c: ServiceCategory, entries: seq<Entry>, categories: seq<ServiceCategory>)
    requires c in categories
    ensures Consistent(Block(c, entries), categories) && Positive(Block(c, entries))
  {
  }

  /** Eight blocks of the eight listed categories meet both invariants together. */
  lemma BlocksValid(categories: seq<ServiceCategory>, e0: seq<Entry>, e1: seq<Entry>, e2: seq<Entry>, e3: seq<Entry>,
                    e4: seq<Entry>, e5: seq<Entry>, e6: seq<Entry>, e7: seq<Entry>)
    requires |categories| == 8
    ensures var all := Block(categories[0], e0) + Block(categories[1], e1) + Block(categories[2], e2) +
                       Block(categories[3], e3) + Block(categories[4], e4) + Block(categories[5], e5) +
                       Block(categories[6], e6) + Block(categories[7], e7);
            Consistent(all, categories) && Positive(all)
  {
    var b0, b1, b2, b3 := Block(categories[0], e0), Block(categories[1], e1), Block(categories[2], e2), Block(categories[3], e3);
    var b4, b5, b6, b7 := Block(categories[4], e4), Block(categories[5], e5), Block(categories[6], e6), Block(categories[7], e7);
    BlockValid(categories[0], e0, categories);
    BlockValid(categories[1], e1, categories);
    BlockValid(categories[2], e2, categories);
    BlockValid(categories[3], e3, categories);
    BlockValid(categories[4], e4, categories);
    BlockValid(categories[5], e5, categories);
    BlockValid(categories[6], e6, categories);
    BlockValid(categories[7], e7, categories);
    ValidAppend(b0, b1, categories);
    ValidAppend(b0 + b1, b2, categories);
    ValidAppend(b0 + b1 + b2, b3, categories);
    ValidAppend(b0 + b1 + b2 + b3, b4, categories);
    ValidAppend(b0 + b1 + b2 + b3 + b4, b5, categories);
    ValidAppend(b0 + b1 + b2 + b3 + b4 + b5, b6, categories);
    ValidAppend(b0 + b1 + b2 + b3 + b4 + b5 + b6, b7, categories);
  }

  /**
   * The shipped catalogue meets the service screen's invariants: every service's category is one
   * of `serviceCategories` and every price and duration is positive, so the screen opens valid.
   */
  lemma CatalogueValid()
    ensures Consistent(Services, Categories) && Positive(Services)
  {
    BlocksValid(Categories, Entries0, Entries1, Entries2, Entries3, Entries4, Entries5, Entries6, Entries7);
  }

  /** The screen as the app opens it: on the shipped catalogue, valid from the start. */
  method OpenScreen() returns (screen: ServiceManagementScreen)
    ensures fresh(screen) && screen.Valid()
    ensures screen.services == Services && screen.categories == Categories
  {
    CatalogueValid();
    screen := new ServiceManagementScreen(Services, Categories);
  }
}
