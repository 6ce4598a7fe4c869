/** The generator of the mock fleet: one vehicle record for a city and ZIP
    code, built from a catalogue entry and a handful of random draws. The
    draws, the clock readings and the record id are parameters. */
module SeedData {
  import opened Optional
  import opened Text
  import opened Fleet
  import opened FleetQuery

  /** A city the fleet is spread over. */
  datatype City = City(name: string, state: string, zipCodes: seq<string>)

  /** A catalogue vehicle with its daily-rate range in dollars. */
  datatype Model = Model(make: string, model: string, year: int, category: string, rateLow: int, rateHigh: int)

  const Cities: seq<City> := [
    City("Los Angeles", "CA", ["90001", "90002", "90003", "90004", "90005", "90006", "90007", "90008"]),
    City("New York", "NY", ["10001", "10002", "10003", "10004", "10005", "10006", "10007", "10008"]),
    City("Chicago", "IL", ["60601", "60602", "60603", "60604", "60605", "60606", "60607", "60608"]),
    City("Houston", "TX", ["77001", "77002", "77003", "77004", "77005", "77006", "77007", "77008"]),
    City("Phoenix", "AZ", ["85001", "85002", "85003", "85004", "85005", "85006", "85007", "85008"]),
    City("Miami", "FL", ["33101", "33102", "33109", "33125", "33126", "33127", "33128", "33129"]),
    City("Atlanta", "GA", ["30301", "30302", "30303", "30304", "30305", "30306", "30307", "30308"]),
    City("Seattle", "WA", ["98101", "98102", "98103", "98104", "98105", "98106", "98107", "98108"]),
    City("Denver", "CO", ["80201", "80202", "80203", "80204", "80205", "80206", "80207", "80208"]),
    City("Boston", "MA", ["02101", "02102", "02103", "02104", "02105", "02106", "02107", "02108"])]

  const Catalogue: seq<Model> := [
    Model("Toyota", "Camry", 2024, "sedan", 45, 65),
    Model("Honda", "Accord", 2024, "sedan", 45, 65),
    Model("Ford", "Escape", 2024, "suv", 55, 75),
    Model("Chevrolet", "Equinox", 2024, "suv", 55, 75),
    Model("Nissan", "Altima", 2023, "sedan", 40, 60),
    Model("Hyundai", "Elantra", 2024, "sedan", 35, 55),
    Model("Jeep", "Grand Cherokee", 2024, "suv", 70, 90),
    Model("Toyota", "RAV4", 2024, "suv", 60, 80),
    Model("Honda", "CR-V", 2024, "suv", 60, 80),
    Model("Ford", "Mustang", 2024, "sports", 80, 120),
    Model("Chevrolet", "Corvette", 2024, "sports", 150, 200),
    Model("Tesla", "Model 3", 2024, "electric", 90, 130),
    Model("Tesla", "Model Y", 2024, "electric", 100, 140),
    Model("Ford", "F-150", 2024, "truck", 75, 95),
    Model("Chevrolet", "Silverado", 2024, "truck", 75, 95),
    Model("Dodge", "Charger", 2024, "sedan", 65, 85),
    Model("BMW", "3 Series", 2024, "luxury", 100, 150),
    Model("Mercedes", "C-Class", 2024, "luxury", 110, 160),
    Model("Audi", "A4", 2024, "luxury", 105, 155),
    Model("Volkswagen", "Jetta", 2024, "sedan", 40, 60)]

  const Statuses := ["available", "rented", "maintenance"]

  const PlatePrefixes := ["ABC", "XYZ", "DEF", "GHI", "JKL"]

  /** The VIN characters after the leading 1: digits and the capital
      letters other than I, O and Q. */
  const VinAlphabet := "ABCDEFGHJKLMNPRSTUVWXYZ0123456789"

  /** One day on the record clock. */
  const DayMicros := 86_400_000_000

  /** Everything the generator draws at random or reads from the clock, in
      the order it does: catalogue entry, status, mileage, daily rate (already
      rounded to cents), plate prefix and number, the sixteen VIN characters,
      the rental offsets in days, the record id, and the three clock
      readings. */
  datatype Draws = Draws(
    modelIndex: nat, statusIndex: nat, mileage: int, dailyRate: real,
    prefixIndex: nat, plateNumber: int, vinIndices: seq<nat>,
    daysAgo: int, daysAhead: int, vehicleId: string,
    startClock: Micros, endClock: Micros, updatedClock: Micros)

  /** The ranges the draws come from; the clock does not run backwards. */
  predicate ValidDraws(d: Draws) {
    && d.modelIndex < |Catalogue|
    && d.statusIndex < |Statuses|
    && 5000 <= d.mileage <= 50000
    && Catalogue[d.modelIndex].rateLow as real <= d.dailyRate <= Catalogue[d.modelIndex].rateHigh as real
    && (d.dailyRate * 100.0).Floor as real == d.dailyRate * 100.0
    && d.prefixIndex < |PlatePrefixes|
    && 1000 <= d.plateNumber <= 9999
    && |d.vinIndices| == 16 && (forall i :: 0 <= i < 16 ==> d.vinIndices[i] < |VinAlphabet|)
    && 1 <= d.daysAgo <= 7 && 1 <= d.daysAhead <= 14
    && d.startClock <= d.endClock <= d.updatedClock
  }

  /** The seventeen-character VIN. */
  function Vin(d: Draws): (vin: string)
    requires ValidDraws(d)
    ensures |vin| == 17 && vin[0] == '1'
    ensures forall i :: 1 <= i < 17 ==> vin[i] in VinAlphabet
  {
    "1" + seq(16, i requires 0 <= i < 16 => VinAlphabet[d.vinIndices[i]])
  }

  /** `<prefix><number>`: a plate prefix followed by four digits. */
  function LicensePlate(d: Draws): (plate: string)
    requires ValidDraws(d)
    ensures |plate| == 7 && plate[..3] in PlatePrefixes
    ensures AllDigits(plate[3..]) && DigitsValue(plate[3..]) == d.plateNumber
  {
    var digits := DecimalText(d.plateNumber);
    FourDigitText(d.plateNumber);
    DigitsValueOfText(d.plateNumber);
    var plate := PlatePrefixes[d.prefixIndex] + digits;
    assert plate[..3] == PlatePrefixes[d.prefixIndex] && plate[3..] == digits;
    plate
  }

  /** The rental period of a rented vehicle: from one to seven days before
      the first clock reading to one to fourteen days after the second. */
  function RentalPeriod(rented: bool, d: Draws): (period: (Option<Micros>, Option<Micros>))
    requires ValidDraws(d)
    ensures period.0.Some? <==> rented
    ensures period.1.Some? <==> rented
    ensures rented ==> period.0.value < d.startClock && d.endClock < period.1.value
  {
    if rented then (Some(d.startClock - d.daysAgo * DayMicros), Some(d.endClock + d.daysAhead * DayMicros))
    else (None, None)
  }

  /** The record carries the make, model, year and category of `m`, and a
      daily rate in whole cents within its range. */
  predicate FromCatalogue(v: Vehicle, m: Model) {
    && v.make == m.make && v.model == m.model && v.year == m.year && v.category == m.category
    && m.rateLow as real <= v.dailyRate <= m.rateHigh as real
    && (v.dailyRate * 100.0).Floor as real == v.dailyRate * 100.0
  }

  /** `generate_vehicle_data`. */
  function GenerateVehicle(city: City, zipCode: string, d: Draws): (v: Vehicle)
    requires ValidDraws(d)
    ensures v.status in Statuses
    ensures v.status == "rented" <==> v.rentalStart.Some?
    ensures v.status == "rented" <==> v.rentalEnd.Some?
    ensures v.rentalStart.Some? ==> v.rentalStart.value < v.rentalEnd.value && v.rentalStart.value < v.lastUpdated
    ensures v.location == city.name + ", " + city.state && v.zipCode == zipCode
    ensures exists m :: m in Catalogue && FromCatalogue(v, m)
    ensures 5000 <= v.mileage <= 50000
    ensures |v.licensePlate| == 7 && v.licensePlate[..3] in PlatePrefixes
    ensures AllDigits(v.licensePlate[3..]) && 1000 <= DigitsValue(v.licensePlate[3..]) <= 9999
    ensures |v.vin| == 17 && v.vin[0] == '1' && forall i :: 1 <= i < 17 ==> v.vin[i] in VinAlphabet
  {
    var m := Catalogue[d.modelIndex];
    var status := Statuses[d.statusIndex];
    var period := RentalPeriod(status == "rented", d);
    var v := Vehicle(
      d.vehicleId, m.make, m.model, m.year, m.category, status,
      city.name + ", " + city.state, zipCode, d.dailyRate, d.mileage, LicensePlate(d), Vin(d),
      period.0, period.1, d.updatedClock);
    assert FromCatalogue(v, m);
    v
  }

  /** A digit or a capital letter other than I, O and Q. */
  predicate VinChar(c: char) {
    ('0' <= c <= '9') || ('A' <= c <= 'Z' && c != 'I' && c != 'O' && c != 'Q')
  }

  /** The VIN alphabet leaves out the letters that read like digits. */
  lemma VinAlphabetChars()
    ensures forall i :: 0 <= i < |VinAlphabet| ==> VinChar(VinAlphabet[i])
  {
  }

  /** A record the generator can produce. */
  ghost predicate Generated(v: Vehicle) {
    exists city: City, zipCode: string, d: Draws :: ValidDraws(d) && v == GenerateVehicle(city, zipCode, d)
  }

  /** A store loaded by the generator satisfies what the summary needs for
      its three status counts to add up to the total. */
  lemma SeededSummaryBalances(store: Store, zip: string)
    requires store.Table? && forall v :: v in store.items ==> Generated(v)
    requires SearchByZip(store, zip, None) != []
    ensures var r := FleetSummary(store, zip);
      r.available + r.rented + r.maintenance == r.totalVehicles
  {
    forall v | v in store.items && v.zipCode == zip
      ensures v.status == "available" || v.status == "rented" || v.status == "maintenance"
    {
      var city: City, zipCode: string, d: Draws :| ValidDraws(d) && v == GenerateVehicle(city, zipCode, d);
      assert v.status in Statuses;
    }
    StatusCountsCoverTotal(store, zip);
  }

  /** In a seeded store a vehicle is out on rent exactly when it has rental
      dates. */
  lemma SeededRentalDates(store: Store)
    requires store.Table? && forall v :: v in store.items ==> Generated(v)
    ensures forall v :: v in store.items ==> (v.status == "rented" <==> v.rentalStart.Some? && v.rentalEnd.Some?)
  {
    forall v | v in store.items
      ensures v.status == "rented" <==> v.rentalStart.Some? && v.rentalEnd.Some?
    {
      var city: City, zipCode: string, d: Draws :| ValidDraws(d) && v == GenerateVehicle(city, zipCode, d);
    }
  }
}
