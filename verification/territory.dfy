/** Sales-territory assignment: a fixed, ordered table of five territories,
    each covering a list of place names; a location is assigned to the first
    territory one of whose place names occurs in it, ignoring letter case,
    and to the central territory when none does. */
module Territories {
  import opened Wrappers
  import opened Text

  /** One row of the territory table, as returned to callers
      (`{ territory, rep, phone, email, coverage }`). */
  datatype Territory = Territory(
    id: string,
    rep: string,
    phone: string,
    email: string,
    coverage: seq<string>)

  const Northwest: Territory := Territory("northwest", "Sarah Johnson", "(406) 555-0101",
    "sarah.johnson@mfcompany.com", ["Missoula", "Kalispell", "Whitefish", "Columbia Falls"])
  const Northeast: Territory := Territory("northeast", "Mike Peterson", "(406) 555-0102",
    "mike.peterson@mfcompany.com", ["Great Falls", "Havre", "Glasgow", "Malta"])
  const Central: Territory := Territory("central", "Lisa Chen", "(406) 555-0103",
    "lisa.chen@mfcompany.com", ["Helena", "Butte", "Bozeman", "Livingston"])
  const South: Territory := Territory("south", "David Rodriguez", "(406) 555-0104",
    "david.rodriguez@mfcompany.com", ["Billings", "Miles City", "Glendive", "Sidney"])
  const Southwest: Territory := Territory("southwest", "Jennifer White", "(406) 555-0105",
    "jennifer.white@mfcompany.com", ["Missoula", "Hamilton", "Dillon", "Anaconda"])

  /** The table in declaration order, which is the order it is scanned in. */
  const Table: seq<Territory> := [Northwest, Northeast, Central, South, Southwest]

  /** Each place name lower-cased, as the scan compares them. */
  function LowerAll(names: seq<string>): seq<string> {
    seq(|names|, i requires 0 <= i < |names| => ToLower(names[i]))
  }

  /** Some place name covered by `t` occurs in the lower-cased location. */
  predicate Covers(t: Territory, loc: string) {
    ContainsAny(loc, LowerAll(t.coverage))
  }

  /** Index of the first row of `table` covering `loc`, if any. */
  function FirstCovering(table: seq<Territory>, loc: string): (r: Option<nat>)
    ensures r.Some? ==> r.value < |table| && Covers(table[r.value], loc)
    ensures r.Some? ==> forall j :: 0 <= j < r.value ==> !Covers(table[j], loc)
    ensures r.None? ==> forall j :: 0 <= j < |table| ==> !Covers(table[j], loc)
    decreases |table|
  {
    if |table| == 0 then None
    else if Covers(table[0], loc) then Some(0)
    else match FirstCovering(table[1..], loc)
      case None => None
      case Some(k) => Some(k + 1)
  }

  /** The scan over any table, with `fallback` when no row covers the
      location. The answer is the fallback exactly when no row matches, and
      otherwise the earliest matching row. */
  function ResolveIn(table: seq<Territory>, fallback: Territory, location: string): (r: Territory)
    ensures (forall j :: 0 <= j < |table| ==> !Covers(table[j], ToLower(location))) ==> r == fallback
    ensures (exists j :: 0 <= j < |table| && Covers(table[j], ToLower(location))) ==>
              exists i :: 0 <= i < |table| && r == table[i] && Covers(table[i], ToLower(location))
                          && forall j :: 0 <= j < i ==> !Covers(table[j], ToLower(location))
  {
    match FirstCovering(table, ToLower(location))
    case Some(i) => table[i]
    case None => fallback
  }

  /** `getTerritoryByLocation(location)`: always one of the five rows. */
  function Resolve(location: string): (r: Territory)
    ensures r in Table
  {
    ResolveIn(Table, Central, location)
  }

  // ---------------------------------------------------------------------
  // First-match semantics on the fixed table
  // ---------------------------------------------------------------------

  /** The five rows are pairwise distinct (their ids differ). */
  lemma TableRowsDistinct()
    ensures forall i, j :: 0 <= i < j < |Table| ==> Table[i].id != Table[j].id
  {
  }

  /** A location covered by row `i` and by no earlier row goes to row `i`. */
  lemma FirstCoveringRowWins(location: string, i: int)
    requires 0 <= i < |Table| && Covers(Table[i], ToLower(location))
    requires forall j :: 0 <= j < i ==> !Covers(Table[j], ToLower(location))
    ensures Resolve(location) == Table[i]
  {
    var loc := ToLower(location);
    var k :| 0 <= k < |Table| && Resolve(location) == Table[k] && Covers(Table[k], loc)
             && forall j :: 0 <= j < k ==> !Covers(Table[j], loc);
    assert k == i;
  }

  /** A location no row covers goes to central, with central's contact. */
  lemma UncoveredLocationIsCentral(location: string)
    requires forall j :: 0 <= j < |Table| ==> !Covers(Table[j], ToLower(location))
    ensures Resolve(location) == Central
    ensures Resolve(location).rep == "Lisa Chen"
    ensures Resolve(location).phone == "(406) 555-0103"
    ensures Resolve(location).email == "lisa.chen@mfcompany.com"
  {
  }

  /** Every place name of the table is non-empty, so nothing covers the
      empty string callers pass for an absent location. */
  lemma EmptyLocationIsCentral()
    ensures Resolve("") == Central
  {
    forall j | 0 <= j < |Table| ensures !Covers(Table[j], ToLower("")) {
      var names := LowerAll(Table[j].coverage);
      ContainsAnyIffSome("", names);
      forall k | 0 <= k < |names| ensures !Contains("", names[k]) {
        assert |names[k]| == |Table[j].coverage[k]| > 0;
      }
    }
  }

  /** The place names of the two rows that share Missoula, lower-cased. */
  lemma MissoulaRows()
    ensures LowerAll(Northwest.coverage)[0] == "missoula"
    ensures LowerAll(Southwest.coverage) == ["missoula", "hamilton", "dillon", "anaconda"]
  {
    var sw := LowerAll(Southwest.coverage);
    assert sw[0] == ToLower("Missoula") == "missoula";
    assert sw[1] == ToLower("Hamilton") == "hamilton";
    assert sw[2] == ToLower("Dillon") == "dillon";
    assert sw[3] == ToLower("Anaconda") == "anaconda";
  }

  /** Missoula is listed under both northwest and southwest; since
      northwest is declared first, every location naming Missoula goes to
      northwest and never to southwest. */
  lemma MissoulaGoesNorthwest(location: string)
    requires Contains(ToLower(location), "missoula")
    ensures Resolve(location) == Northwest
    ensures Resolve(location).id != "southwest"
  {
    MissoulaRows();
    ContainsAnyIffSome(ToLower(location), LowerAll(Northwest.coverage));
    FirstCoveringRowWins(location, 0);
  }

  /** Consequently southwest is reached only through its other towns. */
  lemma SouthwestOnlyThroughItsOwnTowns(location: string)
    requires Resolve(location).id == "southwest"
    ensures ContainsAny(ToLower(location), ["hamilton", "dillon", "anaconda"])
    ensures !Contains(ToLower(location), "missoula")
  {
    var loc := ToLower(location);
    if Contains(loc, "missoula") {
      MissoulaGoesNorthwest(location);
      assert false;
    }
    TableRowsDistinct();
    assert Resolve(location) == Southwest;
    assert Covers(Southwest, loc);
    MissoulaRows();
    var names := LowerAll(Southwest.coverage);
    ContainsAnyIffSome(loc, names);
    var k :| 0 <= k < |names| && Contains(loc, names[k]);
    assert k != 0;
    ContainsAnyIffSome(loc, ["hamilton", "dillon", "anaconda"]);
    assert ["hamilton", "dillon", "anaconda"][k - 1] == names[k];
  }

  /** Central is the answer exactly when neither earlier row matches and
      either central itself matches or neither later row does. */
  lemma CentralExactly(location: string)
    ensures var loc := ToLower(location);
      Resolve(location) == Central <==>
        !Covers(Northwest, loc) && !Covers(Northeast, loc)
        && (Covers(Central, loc) || (!Covers(South, loc) && !Covers(Southwest, loc)))
  {
    TableRowsDistinct();
    var loc := ToLower(location);
    assert Table[0] == Northwest && Table[1] == Northeast && Table[2] == Central;
    assert Table[3] == South && Table[4] == Southwest;
    match FirstCovering(Table, loc)
    case None =>
      assert Resolve(location) == Central;
      assert !Covers(Table[0], loc) && !Covers(Table[1], loc) && !Covers(Table[3], loc);
      assert !Covers(Table[4], loc);
    case Some(i) =>
      assert Resolve(location) == Table[i];
      assert Resolve(location) == Central <==> i == 2;
      assert i < 2 ==> Covers(Northwest, loc) || Covers(Northeast, loc);
      assert i > 2 ==> Covers(South, loc) || Covers(Southwest, loc);
  }

  /** A row whose every place name has a letter the location lacks does
      not cover the location. */
  lemma NotCoveredWhenLettersMissing(t: Territory, loc: string, missing: seq<char>)
    requires |missing| == |t.coverage|
    requires forall k :: 0 <= k < |missing| ==> missing[k] in ToLower(t.coverage[k]) && missing[k] !in loc
    ensures !Covers(t, loc)
  {
    var names := LowerAll(t.coverage);
    ContainsAnyIffSome(loc, names);
    forall k | 0 <= k < |names| ensures !Contains(loc, names[k]) {
      var j :| 0 <= j < |names[k]| && names[k][j] == missing[k];
      ContainsMissingChar(loc, names[k], j);
    }
  }

  /** No place name of the three rows before south occurs in "billings". */
  lemma BillingsMissesNorthwest(loc: string)
    requires loc == "billings"
    ensures !Covers(Northwest, loc)
  {
    assert ToLower("Missoula") == "missoula" && ToLower("Kalispell") == "kalispell";
    assert ToLower("Whitefish") == "whitefish" && ToLower("Columbia Falls") == "columbia falls";
    NotCoveredWhenLettersMissing(Northwest, loc, ['m', 'k', 'w', 'c']);
  }

  lemma BillingsMissesNortheast(loc: string)
    requires loc == "billings"
    ensures !Covers(Northeast, loc)
  {
    assert ToLower("Great Falls") == "great falls" && ToLower("Havre") == "havre";
    assert ToLower("Glasgow") == "glasgow" && ToLower("Malta") == "malta";
    NotCoveredWhenLettersMissing(Northeast, loc, ['r', 'h', 'a', 'm']);
  }

  lemma BillingsMissesCentral(loc: string)
    requires loc == "billings"
    ensures !Covers(Central, loc)
  {
    assert ToLower("Helena") == "helena" && ToLower("Butte") == "butte";
    assert ToLower("Bozeman") == "bozeman" && ToLower("Livingston") == "livingston";
    NotCoveredWhenLettersMissing(Central, loc, ['h', 'u', 'o', 'v']);
  }

  /** "Billings", in any letter case, is assigned to the south territory. */
  lemma BillingsIsSouth(location: string)
    requires ToLower(location) == "billings"
    ensures Resolve(location) == South
  {
    var loc := ToLower(location);
    BillingsMissesNorthwest(loc);
    BillingsMissesNortheast(loc);
    BillingsMissesCentral(loc);
    assert LowerAll(South.coverage)[0] == ToLower("Billings") == loc;
    ContainsIffOccurs(loc, loc);
    assert OccursAt(loc, loc, 0);
    ContainsAnyIffSome(loc, LowerAll(South.coverage));
    FirstCoveringRowWins(location, 3);
  }

  /** Territory assignment ignores letter case. */
  lemma ResolveIgnoresCase(a: string, b: string)
    requires SameIgnoringCase(a, b)
    ensures Resolve(a) == Resolve(b)
  {
    LowerOfCaseVariant(a, b);
  }
}
