/** The fleet tools over the vehicle table: the zip-code query, the filtered
    cross-location scan, the per-zip summary and the grouped search reply.
    The table is an input; its query and scan calls are modelled by what
    they return. */
module FleetQuery {
  import opened Optional
  import opened Text
  import opened Fleet

  /** The fleet table as the tools see it: its records in store order, or a
      store whose every call raises. */
  datatype Store = Table(items: seq<Vehicle>) | Unreachable

  /** An optional string argument is applied only when it is truthy: present
      and non-empty. */
  predicate Given(arg: Option<string>) {
    arg.Some? && arg.value != ""
  }

  // ---------------------------------------------------------------------------
  // Query by zip code
  // ---------------------------------------------------------------------------

  /** The key condition of the zip-code index query: the zip code, and the
      status as well when one is given. */
  predicate AtZip(v: Vehicle, zip: string, status: Option<string>) {
    v.zipCode == zip && (Given(status) ==> v.status == status.value)
  }

  /** `_search_by_zip`: the records under the zip code (and status) in store
      order, or `[]` when the store call fails. */
  function SearchByZip(store: Store, zip: string, status: Option<string>): (r: seq<Vehicle>)
    ensures store.Unreachable? ==> r == []
    ensures forall v :: v in r ==> v in store.items && AtZip(v, zip, status)
  {
    match store
    case Unreachable => []
    case Table(items) => Filter(items, v => AtZip(v, zip, status))
  }

  /** The zip query returns exactly the stored records with that zip code
      (and that status, when one is given), each as often as it is stored,
      in store order. */
  lemma SearchByZipExact(items: seq<Vehicle>, zip: string, status: Option<string>)
    ensures var r := SearchByZip(Table(items), zip, status);
      && (forall v :: multiset(r)[v] == if AtZip(v, zip, status) then multiset(items)[v] else 0)
      && IsSubsequence(r, items)
  {
    FilterCounts(items, v => AtZip(v, zip, status));
    FilterKeepsOrder(items, v => AtZip(v, zip, status));
  }

  /** The reply of `search_fleet_by_zip`. */
  datatype ZipReply =
    | NoneAtZip(message: string)
    | ZipFound(zipCode: string, location: string, count: nat, vehicles: seq<Vehicle>)

  /** `search_fleet_by_zip`: the matching records, located by the first. */
  function SearchFleetByZip(store: Store, zip: string, status: Option<string>): (r: ZipReply)
    ensures r.NoneAtZip? <==> SearchByZip(store, zip, status) == []
    ensures r.NoneAtZip? ==> r.message == "No vehicles found for " + zip
    ensures r.ZipFound? ==>
      && r.zipCode == zip
      && r.vehicles == SearchByZip(store, zip, status)
      && r.count == |r.vehicles| > 0
      && r.location == r.vehicles[0].location
      && (forall v :: v in r.vehicles ==> v.zipCode == zip)
  {
    var vs := SearchByZip(store, zip, status);
    if vs == [] then NoneAtZip("No vehicles found for " + zip)
    else
      ZipFound(zip, vs[0].location, |vs|, vs)
  }

  // ---------------------------------------------------------------------------
  // Summary of one zip code
  // ---------------------------------------------------------------------------

  /** The reply of `_get_summary`. The average daily rate is the exact mean;
      the tool rounds a float mean to two places. */
  datatype Summary =
    | NoVehicles(error: string)
    | Report(zipCode: string, location: string, totalVehicles: nat,
             available: nat, rented: nat, maintenance: nat,
             categories: map<string, nat>, avgDailyRate: real)

  /** The sum of the daily rates of `vs`. */
  function RateSum(vs: seq<Vehicle>): real {
    if vs == [] then 0.0 else RateSum(vs[..|vs| - 1]) + vs[|vs| - 1].dailyRate
  }

  /** The mean daily rate of a non-empty list of records: the rate that,
      charged for every record, adds up to the sum of their rates. */
  function MeanRate(vs: seq<Vehicle>): (mean: real)
    requires vs != []
    ensures mean * (|vs| as real) == RateSum(vs)
  {
    DivideThenMultiply(RateSum(vs), |vs| as real);
    RateSum(vs) / (|vs| as real)
  }

  /** `_get_summary`: per-status and per-category counts of the records
      under the zip code. */
  function FleetSummary(store: Store, zip: string): (r: Summary)
    ensures r.NoVehicles? <==> SearchByZip(store, zip, None) == []
    ensures r.NoVehicles? ==> r.error == "No vehicles found for " + zip
    ensures r.Report? ==>
      var vs := SearchByZip(store, zip, None);
      && r.zipCode == zip
      && r.location == vs[0].location
      && r.totalVehicles == |vs|
      && r.available <= r.totalVehicles && r.rented <= r.totalVehicles && r.maintenance <= r.totalVehicles
      && r.available == Count(vs, Status, "available")
      && r.rented == Count(vs, Status, "rented")
      && r.maintenance == Count(vs, Status, "maintenance")
      && (forall c :: c in r.categories <==> exists v :: v in vs && Attr(v, Category) == c)
      && (forall c :: c in r.categories ==> r.categories[c] == Count(vs, Category, c) > 0)
      && r.avgDailyRate == MeanRate(vs)
  {
    var vs := SearchByZip(store, zip, None);
    if vs == [] then NoVehicles("No vehicles found for " + zip)
    else
      Report(zip, vs[0].location, |vs|,
             Count(vs, Status, "available"), Count(vs, Status, "rented"), Count(vs, Status, "maintenance"),
             Tally(vs, Category), MeanRate(vs))
  }

  lemma DivideThenMultiply(x: real, n: real)
    requires n > 0.0
    ensures (x / n) * n == x
  {
  }

  /** When every record at the zip code is available, rented or in
      maintenance, the three status counts add up to the total. */
  lemma StatusCountsCoverTotal(store: Store, zip: string)
    requires store.Table?
    requires forall v :: v in store.items && v.zipCode == zip ==>
      v.status == "available" || v.status == "rented" || v.status == "maintenance"
    requires SearchByZip(store, zip, None) != []
    ensures var r := FleetSummary(store, zip);
      r.available + r.rented + r.maintenance == r.totalVehicles
  {
    var vs := SearchByZip(store, zip, None);
    var ks := ["available", "rented", "maintenance"];
    ThreeStatuses(vs, ks);
  }

  /** The three status counts sum to the total when every record carries one
      of the three statuses. */
  lemma ThreeStatuses(vs: seq<Vehicle>, ks: seq<string>)
    requires ks == ["available", "rented", "maintenance"]
    requires forall v :: v in vs ==> Attr(v, Status) in ks
    ensures Count(vs, Status, "available") + Count(vs, Status, "rented") + Count(vs, Status, "maintenance") == |vs|
  {
    FlattenCovers(vs, Status, ks);
    CountSumIsFlattenSize(vs, Status, ks);
    assert ks[..2] == ["available", "rented"] && ks[..2][..1] == ["available"] && ks[..2][..1][..0] == [];
    assert CountSum(vs, Status, ks[..2][..1]) == Count(vs, Status, "available");
    assert CountSum(vs, Status, ks[..2]) == Count(vs, Status, "available") + Count(vs, Status, "rented");
    assert |multiset(Flatten(vs, Status, ks))| == |multiset(vs)|;
  }

  /** The category counts, taken over the distinct categories, add up to the
      total. */
  lemma CategoryCountsCoverTotal(store: Store, zip: string)
    requires SearchByZip(store, zip, None) != []
    ensures var r := FleetSummary(store, zip);
      var vs := SearchByZip(store, zip, None);
      var cs := Distinct(Values(vs, Category));
      && (forall c :: c in cs <==> c in r.categories)
      && CountSum(vs, Category, cs) == r.totalVehicles
  {
    var vs := SearchByZip(store, zip, None);
    PartitionByAttr(vs, Category);
    forall c
      ensures c in Values(vs, Category) <==> exists v :: v in vs && Attr(v, Category) == c
    {
      ValuesHold(vs, Category, c);
    }
  }

  // ---------------------------------------------------------------------------
  // Filtered scan across all locations
  // ---------------------------------------------------------------------------

  /** How many table items one scan call examines. */
  const ScanLimit := 100

  /** The optional arguments of `_search_vehicles`. */
  datatype Filters = Filters(make: Option<string>, model: Option<string>,
                             category: Option<string>, status: Option<string>)

  /** The conjunction of the supplied filters: make and model contain the
      title-cased argument (case-sensitively), the category equals the
      lower-cased argument, and the status equals the argument verbatim. */
  predicate Matches(v: Vehicle, q: Filters) {
    && (Given(q.make) ==> Contains(v.make, Title(q.make.value)))
    && (Given(q.model) ==> Contains(v.model, Title(q.model.value)))
    && (Given(q.category) ==> v.category == Lower(q.category.value))
    && (Given(q.status) ==> v.status == q.status.value)
  }

  /** The items one scan examines: the first `ScanLimit` in store order. */
  function Examined(items: seq<Vehicle>): (r: seq<Vehicle>)
    ensures |r| == if |items| < ScanLimit then |items| else ScanLimit
    ensures r == items[..|r|]
  {
    if |items| <= ScanLimit then items else items[..ScanLimit]
  }

  /** `_search_vehicles`: one scan limited to `ScanLimit` items, filtered by
      the supplied arguments, or `[]` when the store call fails. The limit
      applies before the filter, so the records returned are those among the
      first `ScanLimit` that match. */
  function SearchVehicles(store: Store, q: Filters): (r: seq<Vehicle>)
    ensures |r| <= ScanLimit
    ensures forall v :: v in r ==> Matches(v, q)
    ensures store.Unreachable? ==> r == []
    ensures store.Table? ==>
      && (forall v :: multiset(r)[v] == if Matches(v, q) then multiset(Examined(store.items))[v] else 0)
      && IsSubsequence(r, Examined(store.items))
  {
    match store
    case Unreachable => []
    case Table(items) =>
      FilterCounts(Examined(items), v => Matches(v, q));
      FilterKeepsOrder(Examined(items), v => Matches(v, q));
      Filter(Examined(items), v => Matches(v, q))
  }

  /** With no filter supplied, the scan returns the first `ScanLimit` items. */
  lemma SearchWithoutFilters(items: seq<Vehicle>, q: Filters)
    requires !Given(q.make) && !Given(q.model) && !Given(q.category) && !Given(q.status)
    ensures SearchVehicles(Table(items), q) == if |items| <= ScanLimit then items else items[..ScanLimit]
  {
    FilterAll(Examined(items), v => Matches(v, q));
  }

  /** The category argument is matched without regard to case. */
  lemma CategoryIgnoresCase(store: Store, q: Filters, c: string, d: string)
    requires Lower(c) == Lower(d)
    ensures SearchVehicles(store, q.(category := Some(c))) == SearchVehicles(store, q.(category := Some(d)))
  {
    if store.Table? {
      var q1, q2 := q.(category := Some(c)), q.(category := Some(d));
      assert Given(q1.category) == Given(q2.category) by {
        assert |Lower(c)| == |c| && |Lower(d)| == |d|;
      }
      assert SearchVehicles(store, q1) == Filter(Examined(store.items), v => Matches(v, q1));
      assert SearchVehicles(store, q2) == Filter(Examined(store.items), v => Matches(v, q2));
      FilterAgree(Examined(store.items), v => Matches(v, q1), v => Matches(v, q2));
    }
  }

  /** The make argument is title-cased first, so the case it is typed in
      does not matter. */
  lemma MakeIgnoresCase(store: Store, q: Filters, m: string)
    ensures SearchVehicles(store, q.(make := Some(Lower(m)))) == SearchVehicles(store, q.(make := Some(m)))
  {
    if store.Table? {
      TitleIgnoresCase(m);
      var vs := Examined(store.items);
      var q1, q2 := q.(make := Some(Lower(m))), q.(make := Some(m));
      assert SearchVehicles(store, q1) == Filter(vs, v => Matches(v, q1));
      assert SearchVehicles(store, q2) == Filter(vs, v => Matches(v, q2));
      FilterAgree(vs, v => Matches(v, q1), v => Matches(v, q2));
    }
  }

  /** Likewise for the model argument. */
  lemma ModelIgnoresCase(store: Store, q: Filters, m: string)
    ensures SearchVehicles(store, q.(model := Some(Lower(m)))) == SearchVehicles(store, q.(model := Some(m)))
  {
    if store.Table? {
      TitleIgnoresCase(m);
      var vs := Examined(store.items);
      var q1, q2 := q.(model := Some(Lower(m))), q.(model := Some(m));
      assert SearchVehicles(store, q1) == Filter(vs, v => Matches(v, q1));
      assert SearchVehicles(store, q2) == Filter(vs, v => Matches(v, q2));
      FilterAgree(vs, v => Matches(v, q1), v => Matches(v, q2));
    }
  }

  /** A sample record for the case-sensitivity examples below. */
  function SampleVehicle(model: string, status: string): Vehicle {
    Vehicle("id-1", "Honda", model, 2024, "suv", status, "Los Angeles, CA", "90001",
            65.0, 12000, "ABC1234", "1HGCM82633A004352", None, None, 0)
  }

  /** The status argument is compared verbatim: a capitalised status misses
      the lower-case value the table stores. */
  lemma StatusIsCaseSensitive()
    ensures var v := SampleVehicle("Civic", "available");
      && SearchVehicles(Table([v]), Filters(None, None, None, Some("Available"))) == []
      && SearchVehicles(Table([v]), Filters(None, None, None, Some("available"))) == [v]
  {
    var v := SampleVehicle("Civic", "available");
    var capitalised, exact := Filters(None, None, None, Some("Available")), Filters(None, None, None, Some("available"));
    assert Examined([v]) == [v];
    assert !Matches(v, capitalised) by {
      assert v.status[0] != "Available"[0];
    }
    assert Matches(v, exact);
    FilterSnoc([], v, u => Matches(u, capitalised));
    FilterSnoc([], v, u => Matches(u, exact));
    assert [] + [v] == [v];
  }

  /** Title-casing a model whose stored name is not title case loses it: the
      model `CR-V`, typed exactly as stored, title-cases to `Cr-V`, which the
      stored `CR-V` does not contain. */
  lemma ModelTitleCaseMisses()
    ensures var v := SampleVehicle("CR-V", "available");
      && Title("CR-V") == "Cr-V"
      && SearchVehicles(Table([v]), Filters(None, Some("CR-V"), None, None)) == []
  {
    var v := SampleVehicle("CR-V", "available");
    var t := Title("CR-V");
    assert t == "Cr-V";
    forall i | 0 <= i <= 0
      ensures !OccursAt("CR-V", t, i)
    {
      assert "CR-V"[1] != t[1];
    }
    assert !Contains("CR-V", t);
    assert !Matches(v, Filters(None, Some("CR-V"), None, None));
    assert Filter([v], u => Matches(u, Filters(None, Some("CR-V"), None, None)))
        == Filter([], u => Matches(u, Filters(None, Some("CR-V"), None, None)));
  }

  // ---------------------------------------------------------------------------
  // Search reply grouped by location
  // ---------------------------------------------------------------------------

  /** Records grouped by location: the dictionary's keys in insertion order,
      and each key's list of records. */
  datatype Grouping = Grouping(order: seq<string>, groups: map<string, seq<Vehicle>>)

  /** The grouping loop of `search_vehicles_general`: each record is appended
      to its location's list, which is created on first sight. The result is
      a partition of the records by location. */
  method GroupByLocation(vs: seq<Vehicle>) returns (g: Grouping)
    ensures IsGroupingOf(vs, g)
    ensures NoDuplicates(g.order)
    ensures g.groups.Keys == (set k | k in g.order) == Locations(vs)
    ensures |g.groups| == |g.order| == |Locations(vs)|
    ensures forall k :: k in g.groups ==> g.groups[k] != []
    ensures forall k :: k in g.groups ==> IsSubsequence(g.groups[k], vs)
    ensures forall k, v :: k in g.groups && v in g.groups[k] ==> v.location == k
    ensures multiset(Flatten(vs, Location, g.order)) == multiset(vs)
  {
    g := Grouping([], map[]);
    var i := 0;
    while i < |vs|
      invariant 0 <= i <= |vs|
      invariant IsGroupingOf(vs[..i], g)
    {
      var v := vs[i];
      assert vs[..i + 1] == vs[..i] + [v];
      if v.location in g.groups {
        GroupStepExisting(vs[..i], v, g);
        g := Grouping(g.order, g.groups[v.location := g.groups[v.location] + [v]]);
      } else {
        GroupStepNew(vs[..i], v, g);
        g := Grouping(g.order + [v.location], g.groups[v.location := [v]]);
      }
      i := i + 1;
    }
    assert vs[..i] == vs;
    GroupingIsPartition(vs, g);
    GroupKeys(vs, g);
    GroupsKeepOrder(vs, g);
  }

  /** `g` groups `vs` by location: its keys in order of first appearance, and
      under each key the records with that location, in order. */
  ghost predicate IsGroupingOf(vs: seq<Vehicle>, g: Grouping) {
    && g.order == Distinct(Values(vs, Location))
    && (forall k :: k in g.groups <==> k in Values(vs, Location))
    && (forall k :: k in g.groups ==> g.groups[k] == Select(vs, Location, k))
  }

  /** One step of the grouping loop, for a record whose location already has
      a group: the record is appended to that group. */
  lemma GroupStepExisting(init: seq<Vehicle>, v: Vehicle, g: Grouping)
    requires IsGroupingOf(init, g) && v.location in g.groups
    ensures IsGroupingOf(init + [v], Grouping(g.order, g.groups[v.location := g.groups[v.location] + [v]]))
  {
    var after := g.groups[v.location := g.groups[v.location] + [v]];
    OrderStepExisting(init, v, g.order);
    KeysStep(init, v, g.groups, after);
    GroupsStepExisting(init, v, g.groups);
    IsGrouping(init + [v], Grouping(g.order, after));
  }

  /** The three parts of `IsGroupingOf`, put together. */
  lemma IsGrouping(vs: seq<Vehicle>, g: Grouping)
    requires g.order == Distinct(Values(vs, Location))
    requires forall k :: k in g.groups <==> k in Values(vs, Location)
    requires forall k :: k in g.groups ==> g.groups[k] == Select(vs, Location, k)
    ensures IsGroupingOf(vs, g)
  {
  }

  /** After a step the groups' keys are the locations seen so far. */
  lemma KeysStep(init: seq<Vehicle>, v: Vehicle, before: map<string, seq<Vehicle>>, after: map<string, seq<Vehicle>>)
    requires forall k :: k in before <==> k in Values(init, Location)
    requires after.Keys == before.Keys + {v.location}
    ensures forall k :: k in after <==> k in Values(init + [v], Location)
  {
    ValuesStep(init, v);
  }

  /** Appending the record to the group of its location keeps every group
      equal to the records with its location. */
  lemma GroupsStepExisting(init: seq<Vehicle>, v: Vehicle, groups: map<string, seq<Vehicle>>)
    requires forall k :: k in groups ==> groups[k] == Select(init, Location, k)
    requires v.location in groups
    ensures var after := groups[v.location := groups[v.location] + [v]];
      forall k :: k in after ==> after[k] == Select(init + [v], Location, k)
  {
    var after := groups[v.location := groups[v.location] + [v]];
    forall k | k in after
      ensures after[k] == Select(init + [v], Location, k)
    {
      SelectSnoc(init, v, Location, k);
    }
  }

  /** A record at a location already seen leaves the order of first
      appearance unchanged. */
  lemma OrderStepExisting(init: seq<Vehicle>, v: Vehicle, order: seq<string>)
    requires order == Distinct(Values(init, Location)) && v.location in order
    ensures order == Distinct(Values(init + [v], Location))
  {
    ValuesStep(init, v);
    var xs := Values(init + [v], Location);
    assert xs[..|xs| - 1] == Values(init, Location) && xs[|xs| - 1] == v.location;
  }

  /** One step of the grouping loop, for a record at a location not seen
      before: a new group holding just the record is added last. */
  lemma GroupStepNew(init: seq<Vehicle>, v: Vehicle, g: Grouping)
    requires IsGroupingOf(init, g) && v.location !in g.groups
    ensures IsGroupingOf(init + [v], Grouping(g.order + [v.location], g.groups[v.location := [v]]))
  {
    ValuesStep(init, v);
    SelectStep(init, v);
    SelectAbsent(init, Location, v.location);
  }

  lemma ValuesStep(init: seq<Vehicle>, v: Vehicle)
    ensures Values(init + [v], Location) == Values(init, Location) + [v.location]
    ensures (init + [v])[..|init|] == init
    ensures Values(init + [v], Location)[..|init|] == Values(init, Location)
  {
  }

  lemma SelectStep(init: seq<Vehicle>, v: Vehicle)
    ensures forall k ::
      Select(init + [v], Location, k) == Select(init, Location, k) + (if k == v.location then [v] else [])
  {
    forall k
      ensures Select(init + [v], Location, k) == Select(init, Location, k) + (if k == v.location then [v] else [])
    {
      SelectSnoc(init, v, Location, k);
    }
  }

  /** The distinct locations of `vs`. */
  function Locations(vs: seq<Vehicle>): set<string> {
    set v | v in vs :: v.location
  }

  /** A grouping by location is a partition of the records: every record of
      a group carries the group's location, the locations are listed once
      each, and the groups taken in that order are a permutation of the
      records. */
  lemma GroupingIsPartition(vs: seq<Vehicle>, g: Grouping)
    requires IsGroupingOf(vs, g)
    ensures NoDuplicates(g.order)
    ensures forall k, v :: k in g.groups && v in g.groups[k] ==> v.location == k
    ensures multiset(Flatten(vs, Location, g.order)) == multiset(vs)
  {
    forall k, v | k in g.groups && v in g.groups[k]
      ensures v.location == k
    {
      assert v in Select(vs, Location, k);
    }
    PartitionByAttr(vs, Location);
  }

  /** The keys of a grouping, and the keys listed in order, are the distinct
      locations, each listed once. */
  lemma GroupKeys(vs: seq<Vehicle>, g: Grouping)
    requires IsGroupingOf(vs, g)
    ensures g.groups.Keys == (set k | k in g.order) == Locations(vs)
    ensures |g.groups| == |g.order| == |Locations(vs)|
  {
    forall k
      ensures k in g.groups <==> k in Locations(vs)
    {
      ValuesHold(vs, Location, k);
    }
    assert g.groups.Keys == Locations(vs);
    assert (set k | k in g.order) == Locations(vs);
    SameSize(g.groups.Keys, g.order);
  }

  lemma SameSize(keys: set<string>, order: seq<string>)
    requires NoDuplicates(order) && keys == set k | k in order
    ensures |keys| == |order|
  {
    DistinctSize(order);
  }

  /** Each group is non-empty and keeps the relative order the records have
      in `vs`. */
  lemma GroupsKeepOrder(vs: seq<Vehicle>, g: Grouping)
    requires IsGroupingOf(vs, g)
    ensures forall k :: k in g.groups ==> g.groups[k] != [] && IsSubsequence(g.groups[k], vs)
  {
    forall k | k in g.groups
      ensures g.groups[k] != [] && IsSubsequence(g.groups[k], vs)
    {
      GroupIsOrderedAndNonEmpty(vs, g, k);
    }
  }

  /** Each group holds at least one record and keeps the records' order. */
  lemma GroupIsOrderedAndNonEmpty(vs: seq<Vehicle>, g: Grouping, k: string)
    requires IsGroupingOf(vs, g) && k in g.groups
    ensures g.groups[k] != [] && IsSubsequence(g.groups[k], vs)
  {
    SelectKeepsOrder(vs, Location, k);
    ValuesHold(vs, Location, k);
    var v :| v in vs && Attr(v, Location) == k;
    SelectPresent(vs, Location, v);
  }

  /** The reply of `search_vehicles_general`. */
  datatype SearchReply =
    | NoMatch(message: string)
    | Found(count: nat, locationsFound: nat, vehicles: seq<Vehicle>, byLocation: Grouping)

  /** The labelled term for one argument: `label: arg` when it is supplied,
      nothing otherwise. */
  function Term(name: string, arg: Option<string>): seq<string> {
    if Given(arg) then [name + ": " + arg.value] else []
  }

  /** The labelled search terms for the supplied arguments among `args`,
      labelled by the corresponding `labels`, in argument order. */
  function Terms(labels: seq<string>, args: seq<Option<string>>): (r: seq<string>)
    requires |labels| == |args|
    ensures |r| <= |args|
  {
    if args == [] then [] else Term(labels[0], args[0]) + Terms(labels[1..], args[1..])
  }

  /** A term appears exactly for each supplied argument. */
  lemma {:induction false} TermsAreTheSupplied(labels: seq<string>, args: seq<Option<string>>)
    requires |labels| == |args|
    ensures forall t :: t in Terms(labels, args) <==>
      exists i :: 0 <= i < |args| && Given(args[i]) && t == labels[i] + ": " + args[i].value
  {
    if args != [] {
      TermsAreTheSupplied(labels[1..], args[1..]);
      assert forall i :: 1 <= i < |args| ==> args[i] == args[1..][i - 1] && labels[i] == labels[1..][i - 1];
      assert forall i :: 0 <= i < |args| - 1 ==> args[1..][i] == args[i + 1] && labels[1..][i] == labels[i + 1];
    }
  }

  /** The terms named in the no-match message: make, model, category and
      status, in that order, each only when supplied. */
  function SearchTerms(q: Filters): (r: seq<string>)
    ensures r == Term("make", q.make) + Term("model", q.model) + Term("category", q.category) + Term("status", q.status)
  {
    var l3, a3 := ["status"], [q.status];
    var l2, a2 := ["category"] + l3, [q.category] + a3;
    var l1, a1 := ["model"] + l2, [q.model] + a2;
    var l0, a0 := ["make"] + l1, [q.make] + a1;
    assert l3[1..] == [] && a3[1..] == [] && Terms(l3, a3) == Term("status", q.status) + Terms([], []);
    assert l2[1..] == l3 && a2[1..] == a3 && Terms(l2, a2) == Term("category", q.category) + Terms(l3, a3);
    assert l1[1..] == l2 && a1[1..] == a2 && Terms(l1, a1) == Term("model", q.model) + Terms(l2, a2);
    assert l0[1..] == l1 && a0[1..] == a1 && Terms(l0, a0) == Term("make", q.make) + Terms(l1, a1);
    Terms(l0, a0)
  }

  /** `search_vehicles_general`: the scan result grouped by location, or a
      message naming the supplied terms when nothing matches. */
  method SearchVehiclesGeneral(store: Store, q: Filters) returns (r: SearchReply)
    ensures r.NoMatch? <==> SearchVehicles(store, q) == []
    ensures r.NoMatch? ==> r.message == "No vehicles found matching " + Join(", ", SearchTerms(q))
    ensures r.Found? ==>
      && r.vehicles == SearchVehicles(store, q)
      && r.count == |r.vehicles|
      && r.locationsFound == |Locations(r.vehicles)|
      && r.byLocation.groups.Keys == Locations(r.vehicles)
      && (forall k :: k in r.byLocation.groups ==> r.byLocation.groups[k] == Select(r.vehicles, Location, k))
      && IsGroupingOf(r.vehicles, r.byLocation)
  {
    var vs := SearchVehicles(store, q);
    if vs == [] {
      r := NoMatch("No vehicles found matching " + Join(", ", SearchTerms(q)));
    } else {
      var g := GroupByLocation(vs);
      r := Found(|vs|, |g.groups|, vs, g);
    }
  }

  /** An example of the no-match message: the missing model and the empty
      category are skipped. */
  lemma NoMatchMessage()
    ensures Join(", ", SearchTerms(Filters(Some("Toyota"), None, Some(""), Some("available"))))
         == "make: Toyota, status: available"
  {
    var q := Filters(Some("Toyota"), None, Some(""), Some("available"));
    assert "make" + ": " + "Toyota" == "make: Toyota" && "status" + ": " + "available" == "status: available";
    assert Term("model", q.model) == [] && Term("category", q.category) == [];
    var terms := SearchTerms(q);
    assert terms == ["make: Toyota", "status: available"];
    assert terms[1..] == ["status: available"];
  }

  /** The filter arguments for make, model and category may be typed in any
      case: lower-casing them changes no match. */
  lemma {:induction false} MatchesIgnoreArgumentCase(v: Vehicle, q: Filters)
    ensures Matches(v, Filters(LowerArg(q.make), LowerArg(q.model), LowerArg(q.category), q.status)) == Matches(v, q)
  {
    if q.make.Some? { TitleIgnoresCase(q.make.value); }
    if q.model.Some? { TitleIgnoresCase(q.model.value); }
    if q.category.Some? {
      var c := q.category.value;
      assert Lower(Lower(c)) == Lower(c) by {
        forall i | 0 <= i < |c| ensures Lower(Lower(c))[i] == Lower(c)[i] {
          assert Lower(c)[i] == LowerChar(c[i]);
        }
      }
    }
  }

  /** An argument lower-cased, when there is one. */
  function LowerArg(arg: Option<string>): (r: Option<string>)
    ensures r.Some? == arg.Some? && (Given(r) <==> Given(arg))
  {
    if arg.Some? then Some(Lower(arg.value)) else None
  }
}
