/** The vehicle record of the fleet table, and selecting, counting and
    grouping records by one of their string attributes. */
module Fleet {
  import opened Optional

  /** A point in time, in microseconds on the writer's clock. */
  type Micros = int

  /** One physical rental vehicle, as stored in the fleet table. The daily
      rate is the exact decimal the store keeps. */
  datatype Vehicle = Vehicle(
    vehicleId: string,
    make: string,
    model: string,
    year: int,
    category: string,
    status: string,
    location: string,
    zipCode: string,
    dailyRate: real,
    mileage: int,
    licensePlate: string,
    vin: string,
    rentalStart: Option<Micros>,
    rentalEnd: Option<Micros>,
    lastUpdated: Micros)

  /** The string attributes the tools select, count or group on. */
  datatype Field = ZipCode | Status | Category | Location

  function Attr(v: Vehicle, f: Field): string {
    match f
    case ZipCode => v.zipCode
    case Status => v.status
    case Category => v.category
    case Location => v.location
  }

  /** The attribute `f` of every record, in order. */
  function Values(vs: seq<Vehicle>, f: Field): (r: seq<string>)
    ensures |r| == |vs| && forall i :: 0 <= i < |vs| ==> r[i] == Attr(vs[i], f)
  {
    seq(|vs|, i requires 0 <= i < |vs| => Attr(vs[i], f))
  }

  /** A value appears among the attributes exactly when some record carries it. */
  lemma ValuesHold(vs: seq<Vehicle>, f: Field, k: string)
    ensures k in Values(vs, f) <==> exists v :: v in vs && Attr(v, f) == k
  {
    if k in Values(vs, f) {
      var i :| 0 <= i < |vs| && Values(vs, f)[i] == k;
      assert vs[i] in vs;
    }
    if exists v :: v in vs && Attr(v, f) == k {
      var v :| v in vs && Attr(v, f) == k;
      var i :| 0 <= i < |vs| && vs[i] == v;
      assert Values(vs, f)[i] == k;
    }
  }

  // ---------------------------------------------------------------------------
  // Order-preserving selection
  // ---------------------------------------------------------------------------

  /** `a` is `b` with some elements left out, the rest in their original order. */
  predicate IsSubsequence(a: seq<Vehicle>, b: seq<Vehicle>)
    decreases |b|
  {
    || a == []
    || (&& b != []
        && ((a[|a| - 1] == b[|b| - 1] && IsSubsequence(a[..|a| - 1], b[..|b| - 1]))
            || IsSubsequence(a, b[..|b| - 1])))
  }

  /** The records satisfying `p`, in their original order. */
  function Filter(vs: seq<Vehicle>, p: Vehicle -> bool): (r: seq<Vehicle>)
    ensures |r| <= |vs|
    ensures forall v :: v in r ==> v in vs && p(v)
  {
    if vs == [] then []
    else Filter(vs[..|vs| - 1], p) + (if p(vs[|vs| - 1]) then [vs[|vs| - 1]] else [])
  }

  lemma FilterSnoc(vs: seq<Vehicle>, v: Vehicle, p: Vehicle -> bool)
    ensures Filter(vs + [v], p) == Filter(vs, p) + (if p(v) then [v] else [])
  {
    assert (vs + [v])[..|vs|] == vs;
  }

  /** Filtering keeps every satisfying record as often as it occurs and drops
      every other one. */
  lemma {:induction false} FilterCounts(vs: seq<Vehicle>, p: Vehicle -> bool)
    ensures forall v :: multiset(Filter(vs, p))[v] == if p(v) then multiset(vs)[v] else 0
  {
    if vs != [] {
      var init, last := vs[..|vs| - 1], vs[|vs| - 1];
      FilterCounts(init, p);
      assert vs == init + [last];
    }
  }

  /** Filtering preserves the relative order of the records it keeps. */
  lemma {:induction false} FilterKeepsOrder(vs: seq<Vehicle>, p: Vehicle -> bool)
    ensures IsSubsequence(Filter(vs, p), vs)
  {
    if vs != [] {
      var init := vs[..|vs| - 1];
      FilterKeepsOrder(init, p);
      var s := Filter(vs, p);
      if p(vs[|vs| - 1]) {
        assert s == Filter(init, p) + [vs[|vs| - 1]];
        assert s[..|s| - 1] == Filter(init, p);
        assert s[|s| - 1] == vs[|vs| - 1];
        assert IsSubsequence(s[..|s| - 1], vs[..|vs| - 1]);
      } else {
        assert s == Filter(init, p);
        assert IsSubsequence(s, vs[..|vs| - 1]);
      }
    }
  }

  /** Two predicates that agree on every record filter alike. */
  lemma {:induction false} FilterAgree(vs: seq<Vehicle>, p: Vehicle -> bool, q: Vehicle -> bool)
    requires forall v :: v in vs ==> p(v) == q(v)
    ensures Filter(vs, p) == Filter(vs, q)
  {
    if vs != [] {
      var init := vs[..|vs| - 1];
      FilterAgree(init, p, q);
      assert p(vs[|vs| - 1]) == q(vs[|vs| - 1]);
    }
  }

  /** A predicate every record satisfies keeps them all. */
  lemma {:induction false} FilterAll(vs: seq<Vehicle>, p: Vehicle -> bool)
    requires forall v :: v in vs ==> p(v)
    ensures Filter(vs, p) == vs
  {
    if vs != [] {
      var init := vs[..|vs| - 1];
      FilterAll(init, p);
      assert p(vs[|vs| - 1]) && vs == init + [vs[|vs| - 1]];
    }
  }

  /** The records whose attribute `f` equals `k`, in their original order. */
  function Select(vs: seq<Vehicle>, f: Field, k: string): (r: seq<Vehicle>)
    ensures |r| <= |vs|
    ensures forall v :: v in r ==> v in vs && Attr(v, f) == k
  {
    Filter(vs, v => Attr(v, f) == k)
  }

  /** How many records have attribute `f` equal to `k`. */
  function Count(vs: seq<Vehicle>, f: Field, k: string): nat {
    |Select(vs, f, k)|
  }

  lemma SelectSnoc(vs: seq<Vehicle>, v: Vehicle, f: Field, k: string)
    ensures Select(vs + [v], f, k) == Select(vs, f, k) + (if Attr(v, f) == k then [v] else [])
  {
    FilterSnoc(vs, v, w => Attr(w, f) == k);
  }

  /** Selection keeps every matching record as often as it occurs and drops
      every other one. */
  lemma SelectCounts(vs: seq<Vehicle>, f: Field, k: string)
    ensures forall v :: multiset(Select(vs, f, k))[v] == if Attr(v, f) == k then multiset(vs)[v] else 0
  {
    FilterCounts(vs, v => Attr(v, f) == k);
  }

  /** Selection preserves the relative order of the records it keeps. */
  lemma SelectKeepsOrder(vs: seq<Vehicle>, f: Field, k: string)
    ensures IsSubsequence(Select(vs, f, k), vs)
  {
    FilterKeepsOrder(vs, v => Attr(v, f) == k);
  }

  /** A value no record carries selects nothing. */
  lemma {:induction false} SelectAbsent(vs: seq<Vehicle>, f: Field, k: string)
    requires k !in Values(vs, f)
    ensures Select(vs, f, k) == []
  {
    if vs != [] {
      var init := vs[..|vs| - 1];
      assert Values(init, f) == Values(vs, f)[..|vs| - 1];
      SelectAbsent(init, f, k);
    }
  }

  /** A value some record carries selects at least that record. */
  lemma SelectPresent(vs: seq<Vehicle>, f: Field, v: Vehicle)
    requires v in vs
    ensures v in Select(vs, f, Attr(v, f))
  {
    SelectCounts(vs, f, Attr(v, f));
    assert multiset(vs)[v] > 0;
  }

  /** pandas' `value_counts().to_dict()` on attribute `f`: each value some
      record carries, with the number of records carrying it. */
  function Tally(vs: seq<Vehicle>, f: Field): (m: map<string, nat>)
    ensures forall k :: k in m <==> exists v :: v in vs && Attr(v, f) == k
    ensures forall k :: k in m ==> m[k] == Count(vs, f, k) > 0
  {
    var m := map k | k in Values(vs, f) :: Count(vs, f, k);
    forall k
      ensures k in m <==> exists v :: v in vs && Attr(v, f) == k
    {
      ValuesHold(vs, f, k);
    }
    forall k | k in m
      ensures Count(vs, f, k) > 0
    {
      var v :| v in vs && Attr(v, f) == k;
      SelectPresent(vs, f, v);
    }
    m
  }

  // ---------------------------------------------------------------------------
  // Distinct values in order of first appearance
  // ---------------------------------------------------------------------------

  predicate NoDuplicates(xs: seq<string>) {
    forall i, j :: 0 <= i < j < |xs| ==> xs[i] != xs[j]
  }

  /** The distinct values of `xs`, each where it first appears, as a Python
      dict built by a loop over `xs` orders its keys. */
  function Distinct(xs: seq<string>): (r: seq<string>)
    ensures NoDuplicates(r)
    ensures forall x :: x in r <==> x in xs
  {
    if xs == [] then []
    else
      var d := Distinct(xs[..|xs| - 1]);
      var x := xs[|xs| - 1];
      assert xs == xs[..|xs| - 1] + [x];
      if x in d then d else d + [x]
  }

  lemma {:induction false} DistinctSize(xs: seq<string>)
    requires NoDuplicates(xs)
    ensures |set x | x in xs| == |xs|
  {
    if xs != [] {
      var init, last := xs[..|xs| - 1], xs[|xs| - 1];
      DistinctSize(init);
      assert (set x | x in xs) == (set x | x in init) + {last};
      assert last !in (set x | x in init);
    }
  }

  // ---------------------------------------------------------------------------
  // Concatenated selections: the partition of a sequence by an attribute
  // ---------------------------------------------------------------------------

  /** The selections for the keys `ks`, one after another. */
  function Flatten(vs: seq<Vehicle>, f: Field, ks: seq<string>): seq<Vehicle> {
    if ks == [] then []
    else Flatten(vs, f, ks[..|ks| - 1]) + Select(vs, f, ks[|ks| - 1])
  }

  /** The sum of the counts for the keys `ks`. */
  function CountSum(vs: seq<Vehicle>, f: Field, ks: seq<string>): nat {
    if ks == [] then 0
    else CountSum(vs, f, ks[..|ks| - 1]) + Count(vs, f, ks[|ks| - 1])
  }

  lemma {:induction false} CountSumIsFlattenSize(vs: seq<Vehicle>, f: Field, ks: seq<string>)
    ensures CountSum(vs, f, ks) == |Flatten(vs, f, ks)|
  {
    if ks != [] {
      CountSumIsFlattenSize(vs, f, ks[..|ks| - 1]);
    }
  }

  lemma LastIsNew(ks: seq<string>)
    requires ks != [] && NoDuplicates(ks)
    ensures ks[|ks| - 1] !in ks[..|ks| - 1]
    ensures NoDuplicates(ks[..|ks| - 1])
  {
    var init := ks[..|ks| - 1];
    forall i | 0 <= i < |init|
      ensures init[i] != ks[|ks| - 1]
    {
      assert init[i] == ks[i];
    }
  }

  /** Appending one record adds it to the concatenation exactly when its
      attribute is one of the (distinct) keys. */
  lemma {:induction false} FlattenSnoc(vs: seq<Vehicle>, v: Vehicle, f: Field, ks: seq<string>)
    requires NoDuplicates(ks)
    ensures multiset(Flatten(vs + [v], f, ks)) == multiset(Flatten(vs, f, ks)) + Extra(v, f, ks)
  {
    if ks != [] {
      var init, k := ks[..|ks| - 1], ks[|ks| - 1];
      LastIsNew(ks);
      FlattenSnoc(vs, v, f, init);
      SelectSnoc(vs, v, f, k);
      ExtraSnoc(v, f, ks);
      var a, b := Flatten(vs + [v], f, init), Flatten(vs, f, init);
      var sa, sb := Select(vs + [v], f, k), Select(vs, f, k);
      var one := if Attr(v, f) == k then [v] else [];
      calc {
        multiset(Flatten(vs + [v], f, ks));
        multiset(a + sa);
        multiset(a) + multiset(sa);
        multiset(b) + Extra(v, f, init) + multiset(sb + one);
        multiset(b) + multiset(sb) + (Extra(v, f, init) + multiset(one));
        multiset(b + sb) + Extra(v, f, ks);
      }
    }
  }

  /** The record `v` once if its attribute is among the keys, else nothing. */
  function Extra(v: Vehicle, f: Field, ks: seq<string>): multiset<Vehicle> {
    if Attr(v, f) in ks then multiset{v} else multiset{}
  }

  lemma ExtraSnoc(v: Vehicle, f: Field, ks: seq<string>)
    requires ks != [] && ks[|ks| - 1] !in ks[..|ks| - 1]
    ensures Extra(v, f, ks)
         == Extra(v, f, ks[..|ks| - 1]) + multiset(if Attr(v, f) == ks[|ks| - 1] then [v] else [])
  {
    assert ks == ks[..|ks| - 1] + [ks[|ks| - 1]];
  }

  /** Concatenating the selections for distinct keys takes each record at most
      once, and takes every record when every attribute value is a key. */
  lemma {:induction false} FlattenCovers(vs: seq<Vehicle>, f: Field, ks: seq<string>)
    requires NoDuplicates(ks)
    ensures multiset(Flatten(vs, f, ks)) <= multiset(vs)
    ensures (forall v :: v in vs ==> Attr(v, f) in ks) ==> multiset(Flatten(vs, f, ks)) == multiset(vs)
    ensures |Flatten(vs, f, ks)| <= |vs|
  {
    if vs == [] {
      FlattenOfEmpty(f, ks);
    } else {
      var init, last := vs[..|vs| - 1], vs[|vs| - 1];
      assert vs == init + [last];
      FlattenCovers(init, f, ks);
      FlattenSnoc(init, last, f, ks);
    }
    assert |multiset(Flatten(vs, f, ks))| <= |multiset(vs)|;
  }

  lemma {:induction false} FlattenOfEmpty(f: Field, ks: seq<string>)
    ensures Flatten([], f, ks) == []
  {
    if ks != [] {
      FlattenOfEmpty(f, ks[..|ks| - 1]);
    }
  }

  /** Grouping records by the distinct values of an attribute is a partition:
      the groups, concatenated, are a permutation of the records. */
  lemma PartitionByAttr(vs: seq<Vehicle>, f: Field)
    ensures multiset(Flatten(vs, f, Distinct(Values(vs, f)))) == multiset(vs)
    ensures CountSum(vs, f, Distinct(Values(vs, f))) == |vs|
  {
    var ks := Distinct(Values(vs, f));
    forall v | v in vs
      ensures Attr(v, f) in ks
    {
      var i :| 0 <= i < |vs| && vs[i] == v;
      assert Values(vs, f)[i] == Attr(v, f);
    }
    FlattenCovers(vs, f, ks);
    CountSumIsFlattenSize(vs, f, ks);
  }
}
