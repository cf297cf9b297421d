/** The static location dataset (province -> citys -> areas) and the lookups both
    application variants run over it to fill their selection lists. */
module Catalog {

  /** One district entry of the dataset, `{ "area": name }`. */
  datatype AreaEntry = AreaEntry(area: string)

  /** One city entry, `{ "city": name, "areas": [...] }`; `areas` may be empty. */
  datatype CityEntry = CityEntry(city: string, areas: seq<AreaEntry>)

  /** One province entry, `{ "province": name, "citys": [...] }`. */
  datatype ProvinceEntry = ProvinceEntry(province: string, citys: seq<CityEntry>)

  /** The whole dataset, in file order. Loading it from disk is not modelled. */
  type Dataset = seq<ProvinceEntry>

  // ---------------------------------------------------------------------------
  // Specification of the lookups
  // ---------------------------------------------------------------------------

  /** The names of a run of city entries, in order. */
  function CityNames(cs: seq<CityEntry>): (r: seq<string>)
  {
    seq(|cs|, j requires 0 <= j < |cs| => cs[j].city)
  }

  /** The names of a run of district entries, in order. */
  function AreaNames(as_: seq<AreaEntry>): (r: seq<string>)
  {
    seq(|as_|, k requires 0 <= k < |as_| => as_[k].area)
  }

  /** The cities an entry contributes when the selected province is `p`. */
  function CitiesIn(e: ProvinceEntry, p: string): (r: seq<string>)
  {
    if e.province == p then CityNames(e.citys) else []
  }

  /** Every city of every entry whose province is `p`, in dataset order. */
  function CitiesOf(data: Dataset, p: string): (r: seq<string>)
  {
    if data == [] then [] else CitiesOf(data[..|data| - 1], p) + CitiesIn(data[|data| - 1], p)
  }

  /** Every district of every city entry named `c` in the run `cs`, in order. */
  function AreasInCities(cs: seq<CityEntry>, c: string): (r: seq<string>)
  {
    if cs == [] then []
    else AreasInCities(cs[..|cs| - 1], c)
         + (if cs[|cs| - 1].city == c then AreaNames(cs[|cs| - 1].areas) else [])
  }

  /** The districts an entry contributes when `p` / `c` are selected. */
  function AreasIn(e: ProvinceEntry, p: string, c: string): (r: seq<string>)
  {
    if e.province == p then AreasInCities(e.citys, c) else []
  }

  /** Every district of every (province `p`, city `c`) pair, in dataset order. */
  function AreasOf(data: Dataset, p: string, c: string): (r: seq<string>)
  {
    if data == [] then [] else AreasOf(data[..|data| - 1], p, c) + AreasIn(data[|data| - 1], p, c)
  }

  /** Some entry of province `p` lists a city named `c`. */
  ghost predicate ListsCity(data: Dataset, p: string, c: string)
  {
    exists i, j :: 0 <= i < |data| && data[i].province == p &&
      0 <= j < |data[i].citys| && data[i].citys[j].city == c
  }

  /** Some city entry named `c` in the run `cs` lists a district named `a`. */
  ghost predicate CityListsArea(cs: seq<CityEntry>, c: string, a: string)
  {
    exists j, k :: 0 <= j < |cs| && cs[j].city == c &&
      0 <= k < |cs[j].areas| && cs[j].areas[k].area == a
  }

  /** Some (province `p`, city `c`) entry lists a district named `a`. */
  ghost predicate ListsArea(data: Dataset, p: string, c: string, a: string)
  {
    exists i, j, k :: 0 <= i < |data| && data[i].province == p &&
      0 <= j < |data[i].citys| && data[i].citys[j].city == c &&
      0 <= k < |data[i].citys[j].areas| && data[i].citys[j].areas[k].area == a
  }

  // ---------------------------------------------------------------------------
  // Lemmas about the lookups
  // ---------------------------------------------------------------------------

  /** Looking up cities distributes over splitting the dataset. */
  lemma {:induction false} CitiesOfConcat(d1: Dataset, d2: Dataset, p: string)
    ensures CitiesOf(d1 + d2, p) == CitiesOf(d1, p) + CitiesOf(d2, p)
    decreases |d2|
  {
    if d2 == [] {
      assert d1 + d2 == d1;
    } else {
      var d2' := d2[..|d2| - 1];
      assert (d1 + d2)[..|d1 + d2| - 1] == d1 + d2';
      CitiesOfConcat(d1, d2', p);
    }
  }

  /** The cities an entry contributes are the names of its city entries. */
  lemma CitiesInMember(e: ProvinceEntry, p: string, c: string)
    ensures c in CitiesIn(e, p) <==>
      e.province == p && exists j :: 0 <= j < |e.citys| && e.citys[j].city == c
  {
    if e.province == p && exists j :: 0 <= j < |e.citys| && e.citys[j].city == c {
      var j :| 0 <= j < |e.citys| && e.citys[j].city == c;
      assert CityNames(e.citys)[j] == c;
    }
  }

  /** Appending one entry to the dataset adds exactly the cities it lists. */
  lemma ListsCitySnoc(front: Dataset, e: ProvinceEntry, p: string, c: string)
    ensures ListsCity(front + [e], p, c) <==>
      ListsCity(front, p, c) || (e.province == p && exists j :: 0 <= j < |e.citys| && e.citys[j].city == c)
  {
    var data := front + [e];
    if ListsCity(data, p, c) {
      var i, j :| 0 <= i < |data| && data[i].province == p &&
        0 <= j < |data[i].citys| && data[i].citys[j].city == c;
      if i < |front| {
        assert front[i] == data[i];
      }
    }
    if ListsCity(front, p, c) {
      var i, j :| 0 <= i < |front| && front[i].province == p &&
        0 <= j < |front[i].citys| && front[i].citys[j].city == c;
      assert data[i] == front[i];
    }
    if e.province == p && exists j :: 0 <= j < |e.citys| && e.citys[j].city == c {
      var j :| 0 <= j < |e.citys| && e.citys[j].city == c;
      assert data[|front|] == e;
    }
  }

  /** A city is offered exactly when some entry of the selected province lists it. */
  lemma {:induction false} CitiesOfMember(data: Dataset, p: string, c: string)
    ensures c in CitiesOf(data, p) <==> ListsCity(data, p, c)
  {
    if data != [] {
      var n := |data| - 1;
      var front := data[..n];
      assert data == front + [data[n]];
      CitiesOfMember(front, p, c);
      CitiesInMember(data[n], p, c);
      ListsCitySnoc(front, data[n], p, c);
    }
  }

  /** When no entry has the selected province, no city is offered. */
  lemma {:induction false} CitiesOfUnknown(data: Dataset, p: string)
    requires forall i :: 0 <= i < |data| ==> data[i].province != p
    ensures CitiesOf(data, p) == []
  {
    if data != [] {
      CitiesOfUnknown(data[..|data| - 1], p);
    }
  }

  /** With province names unique, the offered cities are those of the one matching
      entry, in its own order. */
  lemma CitiesOfUnique(data: Dataset, p: string, k: nat)
    requires k < |data| && data[k].province == p
    requires forall i :: 0 <= i < |data| && i != k ==> data[i].province != p
    ensures CitiesOf(data, p) == CityNames(data[k].citys)
  {
    assert data == data[..k] + [data[k]] + data[k + 1..];
    CitiesOfConcat(data[..k] + [data[k]], data[k + 1..], p);
    CitiesOfConcat(data[..k], [data[k]], p);
    CitiesOfUnknown(data[..k], p);
    CitiesOfUnknown(data[k + 1..], p);
    assert [data[k]][..0] == [];
  }

  /** Looking up districts distributes over splitting the dataset. */
  lemma {:induction false} AreasOfConcat(d1: Dataset, d2: Dataset, p: string, c: string)
    ensures AreasOf(d1 + d2, p, c) == AreasOf(d1, p, c) + AreasOf(d2, p, c)
    decreases |d2|
  {
    if d2 == [] {
      assert d1 + d2 == d1;
    } else {
      var d2' := d2[..|d2| - 1];
      assert (d1 + d2)[..|d1 + d2| - 1] == d1 + d2';
      AreasOfConcat(d1, d2', p, c);
    }
  }

  /** The districts of one city entry, when it is the selected city. */
  lemma AreasOfCityMember(ce: CityEntry, c: string, a: string)
    ensures a in (if ce.city == c then AreaNames(ce.areas) else []) <==>
      ce.city == c && exists k :: 0 <= k < |ce.areas| && ce.areas[k].area == a
  {
    if ce.city == c && exists k :: 0 <= k < |ce.areas| && ce.areas[k].area == a {
      var k :| 0 <= k < |ce.areas| && ce.areas[k].area == a;
      assert AreaNames(ce.areas)[k] == a;
    }
  }

  /** Appending one city entry adds exactly the districts it lists. */
  lemma CityListsAreaSnoc(front: seq<CityEntry>, ce: CityEntry, c: string, a: string)
    ensures CityListsArea(front + [ce], c, a) <==>
      CityListsArea(front, c, a) || (ce.city == c && exists k :: 0 <= k < |ce.areas| && ce.areas[k].area == a)
  {
    var cs := front + [ce];
    if CityListsArea(cs, c, a) {
      var j, k :| 0 <= j < |cs| && cs[j].city == c &&
        0 <= k < |cs[j].areas| && cs[j].areas[k].area == a;
      if j < |front| {
        assert front[j] == cs[j];
      }
    }
    if CityListsArea(front, c, a) {
      var j, k :| 0 <= j < |front| && front[j].city == c &&
        0 <= k < |front[j].areas| && front[j].areas[k].area == a;
      assert cs[j] == front[j];
    }
    if ce.city == c && exists k :: 0 <= k < |ce.areas| && ce.areas[k].area == a {
      var k :| 0 <= k < |ce.areas| && ce.areas[k].area == a;
      assert cs[|front|] == ce;
    }
  }

  /** A district is offered in a run of cities exactly when a city named `c` lists it. */
  lemma {:induction false} AreasInCitiesMember(cs: seq<CityEntry>, c: string, a: string)
    ensures a in AreasInCities(cs, c) <==> CityListsArea(cs, c, a)
  {
    if cs != [] {
      var n := |cs| - 1;
      var front := cs[..n];
      assert cs == front + [cs[n]];
      AreasInCitiesMember(front, c, a);
      AreasOfCityMember(cs[n], c, a);
      CityListsAreaSnoc(front, cs[n], c, a);
    }
  }

  /** Appending one province entry adds exactly the districts it lists. */
  lemma ListsAreaSnoc(front: Dataset, e: ProvinceEntry, p: string, c: string, a: string)
    ensures ListsArea(front + [e], p, c, a) <==>
      ListsArea(front, p, c, a) || (e.province == p && CityListsArea(e.citys, c, a))
  {
    var data := front + [e];
    if ListsArea(data, p, c, a) {
      var i, j, k :| 0 <= i < |data| && data[i].province == p &&
        0 <= j < |data[i].citys| && data[i].citys[j].city == c &&
        0 <= k < |data[i].citys[j].areas| && data[i].citys[j].areas[k].area == a;
      if i < |front| {
        assert front[i] == data[i];
      }
    }
    if ListsArea(front, p, c, a) {
      var i, j, k :| 0 <= i < |front| && front[i].province == p &&
        0 <= j < |front[i].citys| && front[i].citys[j].city == c &&
        0 <= k < |front[i].citys[j].areas| && front[i].citys[j].areas[k].area == a;
      assert data[i] == front[i];
    }
    if e.province == p && CityListsArea(e.citys, c, a) {
      var j, k :| 0 <= j < |e.citys| && e.citys[j].city == c &&
        0 <= k < |e.citys[j].areas| && e.citys[j].areas[k].area == a;
      assert data[|front|] == e;
    }
  }

  /** A district is offered exactly when some (province `p`, city `c`) entry lists it. */
  lemma {:induction false} AreasOfMember(data: Dataset, p: string, c: string, a: string)
    ensures a in AreasOf(data, p, c) <==> ListsArea(data, p, c, a)
  {
    if data != [] {
      var n := |data| - 1;
      var front := data[..n];
      assert data == front + [data[n]];
      AreasOfMember(front, p, c, a);
      AreasInCitiesMember(data[n].citys, c, a);
      ListsAreaSnoc(front, data[n], p, c, a);
    }
  }

  // ---------------------------------------------------------------------------
  // The loops the source runs to fill the selection lists
  // ---------------------------------------------------------------------------

  /** The province list, one name per dataset entry, in dataset order. */
  method ProvinceReturn(data: Dataset) returns (provinces: seq<string>)
    ensures |provinces| == |data|
    ensures forall i :: 0 <= i < |data| ==> provinces[i] == data[i].province
  {
    provinces := [];
    for i := 0 to |data|
      invariant |provinces| == i
      invariant forall i' :: 0 <= i' < i ==> provinces[i'] == data[i'].province
    {
      provinces := provinces + [data[i].province];
    }
  }

  /** The nested loop that gathers the cities of the selected province. */
  method CollectCities(data: Dataset, province: string) returns (cityList: seq<string>)
    ensures cityList == CitiesOf(data, province)
  {
    cityList := [];
    for i := 0 to |data|
      invariant cityList == CitiesOf(data[..i], province)
    {
      ghost var before := cityList;
      if data[i].province == province {
        var cs := data[i].citys;
        for j := 0 to |cs|
          invariant cityList == before + CityNames(cs[..j])
        {
          assert CityNames(cs[..j + 1]) == CityNames(cs[..j]) + [cs[j].city];
          cityList := cityList + [cs[j].city];
        }
        assert cs[..|cs|] == cs;
      }
      assert data[..i + 1][..i] == data[..i];
    }
    assert data[..|data|] == data;
  }

  /** Extending a run of district entries by one extends its names by one. */
  lemma AreaNamesSnoc(as_: seq<AreaEntry>, k: nat)
    requires k < |as_|
    ensures AreaNames(as_[..k + 1]) == AreaNames(as_[..k]) + [as_[k].area]
  {
  }

  /** The inner two loops: the districts of every city entry named `city` in the
      run `cs`, in order. */
  method CollectCityAreas(cs: seq<CityEntry>, city: string) returns (areaList: seq<string>)
    ensures areaList == AreasInCities(cs, city)
  {
    areaList := [];
    for j := 0 to |cs|
      invariant areaList == AreasInCities(cs[..j], city)
    {
      ghost var before := areaList;
      if cs[j].city == city {
        var as_ := cs[j].areas;
        for k := 0 to |as_|
          invariant areaList == before + AreaNames(as_[..k])
        {
          AreaNamesSnoc(as_, k);
          areaList := areaList + [as_[k].area];
        }
        assert as_[..|as_|] == as_;
      }
      assert cs[..j + 1][..j] == cs[..j];
    }
    assert cs[..|cs|] == cs;
  }

  /** The triple loop that gathers the districts of the selected province and city. */
  method CollectAreas(data: Dataset, province: string, city: string) returns (areaList: seq<string>)
    ensures areaList == AreasOf(data, province, city)
  {
    areaList := [];
    for i := 0 to |data|
      invariant areaList == AreasOf(data[..i], province, city)
    {
      if data[i].province == province {
        var cityAreas := CollectCityAreas(data[i].citys, city);
        areaList := areaList + cityAreas;
      }
      assert data[..i + 1][..i] == data[..i];
    }
    assert data[..|data|] == data;
  }
}
