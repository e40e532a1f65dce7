/**
 * What the two rating services share: a transmission line as the line
 * table describes it, the three-way line status, and the loading of
 * per-line baselines into a load predictor.
 */
module Grid {
  import opened Wrappers
  import opened LoadModel

  /** One row of the line table. `reactance` and `p0Nominal` are absent
      when the table has no value for them. */
  datatype GridLine = GridLine(
    name: string,
    branchName: string,
    conductor: string,
    bus0: int,
    bus1: int,
    reactance: Option<real>,
    sNom: real,               // static rating, MVA
    maxOperatingTempC: real,  // maximum conductor temperature, degC
    voltageKv: real,
    p0Nominal: Option<real>   // solved power flow, MW
  )

  /** Line status by utilization. */
  datatype Status = Normal | Warning | Critical {
    /** Severity order: Normal < Warning < Critical. */
    function Rank(): (n: nat)
      ensures n <= 2
    {
      match this
      case Normal => 0
      case Warning => 1
      case Critical => 2
    }
  }

  /** The first line called `name`, as a filter-then-first-row lookup
      finds it. */
  function FindLine(lines: seq<GridLine>, name: string): Option<GridLine> {
    FindBy(lines, (l: GridLine) => l.name, name)
  }

  /** True when no later row of `lines` repeats the name of row `i`. */
  predicate LastWithName(lines: seq<GridLine>, i: int)
    requires 0 <= i < |lines|
  {
    forall j :: i < j < |lines| ==> lines[j].name != lines[i].name
  }

  /** The names the table's rows carry. */
  function NamesOf(lines: seq<GridLine>): set<string> {
    set i | 0 <= i < |lines| :: lines[i].name
  }

  /** Sets every line's baseline, row by row, to `rule(line)`; a later row
      with the same name overwrites an earlier one. */
  function ApplyBaselines(p: LoadPredictor, lines: seq<GridLine>, rule: GridLine -> real): (q: LoadPredictor)
    ensures |lines| == 0 ==> q == p
    ensures q.baselineLoads.Keys == p.baselineLoads.Keys + NamesOf(lines)
    decreases |lines|
  {
    if |lines| == 0 then p
    else ApplyBaselines(p.SetBaselineLoad(lines[0].name, rule(lines[0])), lines[1..], rule)
  }

  /** Exactly the names already known and the names of the rows end up
      with a baseline. */
  lemma {:induction false} ApplyBaselinesKeys(p: LoadPredictor, lines: seq<GridLine>, rule: GridLine -> real, id: string)
    ensures id in ApplyBaselines(p, lines, rule).baselineLoads
        <==> id in p.baselineLoads || exists i :: 0 <= i < |lines| && lines[i].name == id
    decreases |lines|
  {
    if |lines| > 0 {
      var p1 := p.SetBaselineLoad(lines[0].name, rule(lines[0]));
      ApplyBaselinesKeys(p1, lines[1..], rule, id);
      if exists i :: 0 <= i < |lines[1..]| && lines[1..][i].name == id {
        var i :| 0 <= i < |lines[1..]| && lines[1..][i].name == id;
        assert lines[i + 1].name == id;
      }
      if exists i :: 0 <= i < |lines| && lines[i].name == id {
        var i :| 0 <= i < |lines| && lines[i].name == id;
        if i > 0 {
          assert lines[1..][i - 1].name == id;
        }
      }
    }
  }

  /** A row that no later row renames gets its own baseline. */
  lemma {:induction false} ApplyBaselinesLastWins(p: LoadPredictor, lines: seq<GridLine>, rule: GridLine -> real, i: int)
    requires 0 <= i < |lines| && LastWithName(lines, i)
    ensures ApplyBaselines(p, lines, rule).Baseline(lines[i].name) == rule(lines[i])
    decreases |lines|
  {
    var p1 := p.SetBaselineLoad(lines[0].name, rule(lines[0]));
    if i == 0 {
      ApplyBaselinesUntouched(p1, lines[1..], rule, lines[0].name);
    } else {
      assert lines[1..][i - 1] == lines[i];
      assert LastWithName(lines[1..], i - 1) by {
        forall j | i - 1 < j < |lines[1..]| ensures lines[1..][j].name != lines[1..][i - 1].name {
          assert lines[1..][j] == lines[j + 1];
        }
      }
      ApplyBaselinesLastWins(p1, lines[1..], rule, i - 1);
    }
  }

  /** A name no row carries keeps the baseline it had. */
  lemma {:induction false} ApplyBaselinesUntouched(p: LoadPredictor, lines: seq<GridLine>, rule: GridLine -> real, id: string)
    requires forall i :: 0 <= i < |lines| ==> lines[i].name != id
    ensures ApplyBaselines(p, lines, rule).Baseline(id) == p.Baseline(id)
    decreases |lines|
  {
    if |lines| > 0 {
      var p1 := p.SetBaselineLoad(lines[0].name, rule(lines[0]));
      assert forall i :: 0 <= i < |lines[1..]| ==> lines[1..][i] == lines[i + 1];
      ApplyBaselinesUntouched(p1, lines[1..], rule, id);
    }
  }
}
