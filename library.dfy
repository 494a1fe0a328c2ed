/** The cell library and cost metric selection of src/lib.rs: `Cell`,
    `Metric::from_str` and the map-building loop of `load_library`. */
module Library {
  import opened Base

  /** One cell of the library.  The three costs are `f64` in the source; they
      are only stored here. */
  datatype Cell = Cell(name: string, area: real, power: real, timing: real, searcher: string, applier: string)

  /** The cost metric a synthesizer optimises for. */
  datatype Metric = Area | Power | Timing

  /** The spelling of each metric accepted by `from_str`. */
  function MetricName(m: Metric): string
  {
    match m
    case Area => "Area"
    case Power => "Power"
    case Timing => "Timing"
  }

  /** `Metric::from_str`: an exact, case-sensitive match of the three names;
      every other string is rejected. */
  function MetricFromStr(input: string): (r: Result<Metric, ()>)
    ensures r.Ok? <==> input in {"Area", "Power", "Timing"}
    ensures r.Ok? ==> MetricName(r.value) == input
  {
    match input
    case "Area" => Ok(Area)
    case "Power" => Ok(Power)
    case "Timing" => Ok(Timing)
    case _ => Err(())
  }

  /** `from_str` inverts the spelling of every metric. */
  lemma MetricRoundTrip(m: Metric)
    ensures MetricFromStr(MetricName(m)) == Ok(m)
  {
  }

  /** The map after inserting `cells` one by one, each keyed by its name. */
  function LibraryOf(cells: seq<Cell>): map<string, Cell>
  {
    if cells == [] then map[]
    else
      var last := cells[|cells| - 1];
      LibraryOf(cells[..|cells| - 1])[last.name := last]
  }

  /** The map-building loop of `load_library`, after the cells are read. */
  method LoadLibrary(cells: seq<Cell>) returns (library: map<string, Cell>)
    ensures library == LibraryOf(cells)
  {
    library := map[];
    for i := 0 to |cells|
      invariant library == LibraryOf(cells[..i])
    {
      assert cells[..i + 1][..i] == cells[..i];
      library := library[cells[i].name := cells[i]];
    }
    assert cells[..|cells|] == cells;
  }

  /** The keys of the library are exactly the names of the cells. */
  lemma {:induction false} LibraryKeys(cells: seq<Cell>)
    ensures LibraryOf(cells).Keys == set c | c in cells :: c.name
  {
    if cells != [] {
      var init := cells[..|cells| - 1];
      LibraryKeys(init);
      assert cells == init + [cells[|cells| - 1]];
    }
  }

  /** Every entry is a cell of the list, stored under its own name. */
  lemma {:induction false} LibraryEntriesNamed(cells: seq<Cell>)
    ensures forall k | k in LibraryOf(cells) :: LibraryOf(cells)[k].name == k && LibraryOf(cells)[k] in cells
  {
    if cells != [] {
      var init := cells[..|cells| - 1];
      LibraryEntriesNamed(init);
      assert cells == init + [cells[|cells| - 1]];
    }
  }

  /** On duplicate names the later cell wins: a cell is the entry for its
      name exactly when no later cell has the same name. */
  lemma {:induction false} LibraryLaterWins(cells: seq<Cell>, i: nat)
    requires i < |cells|
    ensures cells[i].name in LibraryOf(cells)
    ensures (forall j | i < j < |cells| :: cells[j].name != cells[i].name)
            ==> LibraryOf(cells)[cells[i].name] == cells[i]
  {
    var last := |cells| - 1;
    var init := cells[..last];
    if i < last {
      LibraryLaterWins(init, i);
      assert init[i] == cells[i];
    }
  }
}
