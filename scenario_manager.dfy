/** The saved-scenario list (src/components/ScenarioManager.tsx): an
    in-memory list with append-on-save and delete-by-id, plus the name field
    and the save dialog's open flag. Identifiers and timestamps come from the
    clock in the source and are parameters here. */
module ScenarioManager {

  datatype Scenario = Scenario(
    id: string,
    name: string,
    tariff: real,
    globalPrice: real,
    yieldGap: real,
    volatilityIndex: real,
    timestamp: string)

  /** The `currentScenario` the simulator passes in. */
  datatype CurrentParameters = CurrentParameters(
    tariff: real, globalPrice: real, yieldGap: real, volatilityIndex: real)

  /** The characters `String.prototype.trim` removes: the ECMAScript
      WhiteSpace and LineTerminator code points. */
  predicate IsJsWhitespace(c: char)
  {
    c == '\t' || c == '\U{B}' || c == '\U{C}' || c == ' ' || c == '\U{A0}' || c == '\U{FEFF}'
    || c == '\n' || c == '\r' || c == '\U{2028}' || c == '\U{2029}'
    || c == '\U{1680}' || ('\U{2000}' <= c <= '\U{200A}') || c == '\U{202F}' || c == '\U{205F}' || c == '\U{3000}'
  }

  /** `!name.trim()`: the name is empty once whitespace is trimmed. */
  predicate IsBlank(name: string)
  {
    forall i :: 0 <= i < |name| ==> IsJsWhitespace(name[i])
  }

  /** The two scenarios the list starts with. */
  const InitialScenarios: seq<Scenario> := [
    Scenario("1", "Conservative Approach", 8.0, 1050.0, 58.0, 35.0, "2025-01-15"),
    Scenario("2", "Aggressive Protection", 18.0, 1180.0, 55.0, 65.0, "2025-01-16")
  ]

  /** `scenarios.filter(s => s.id !== id)`. */
  function RemoveId(xs: seq<Scenario>, id: string): (r: seq<Scenario>)
    ensures |r| <= |xs|
    ensures forall i :: 0 <= i < |r| ==> r[i].id != id
  {
    if xs == [] then []
    else if xs[0].id != id then [xs[0]] + RemoveId(xs[1..], id)
    else RemoveId(xs[1..], id)
  }

  /** Delete keeps exactly the entries with another id, unchanged. */
  lemma {:induction false} RemoveIdMembership(xs: seq<Scenario>, id: string, x: Scenario)
    ensures x in RemoveId(xs, id) <==> x in xs && x.id != id
  {
    if xs != [] {
      RemoveIdMembership(xs[1..], id, x);
      assert xs == [xs[0]] + xs[1..];
    }
  }

  /** Delete works piecewise, so it keeps the surviving entries in their
      original relative order. */
  lemma {:induction false} RemoveIdAppend(xs: seq<Scenario>, ys: seq<Scenario>, id: string)
    ensures RemoveId(xs + ys, id) == RemoveId(xs, id) + RemoveId(ys, id)
  {
    if xs == [] {
      assert xs + ys == ys;
    } else {
      assert (xs + ys)[0] == xs[0] && (xs + ys)[1..] == xs[1..] + ys;
      RemoveIdAppend(xs[1..], ys, id);
    }
  }

  /** Deleting an id that is not present leaves the list unchanged. */
  lemma {:induction false} RemoveIdAbsent(xs: seq<Scenario>, id: string)
    requires forall i :: 0 <= i < |xs| ==> xs[i].id != id
    ensures RemoveId(xs, id) == xs
  {
    if xs != [] {
      RemoveIdAbsent(xs[1..], id);
      assert xs == [xs[0]] + xs[1..];
    }
  }

  /** Deleting the id of an entry whose id no other entry shares removes
      exactly that entry and keeps every other one in place. */
  lemma {:induction false} RemoveIdUnique(xs: seq<Scenario>, k: nat)
    requires k < |xs|
    requires forall i :: 0 <= i < |xs| && i != k ==> xs[i].id != xs[k].id
    ensures RemoveId(xs, xs[k].id) == xs[..k] + xs[k + 1..]
  {
    var id := xs[k].id;
    assert xs == xs[..k] + ([xs[k]] + xs[k + 1..]);
    RemoveIdAppend(xs[..k], [xs[k]] + xs[k + 1..], id);
    RemoveIdAbsent(xs[..k], id);
    RemoveIdAbsent(xs[k + 1..], id);
    assert ([xs[k]] + xs[k + 1..])[1..] == xs[k + 1..];
  }

  class Manager {
    var scenarios: seq<Scenario>
    var scenarioName: string
    var saveDialogOpen: bool

    /** The list starts with two scenarios, ids "1" and "2"; the name is
        empty and the dialog closed. */
    constructor ()
      ensures scenarios == InitialScenarios
      ensures |scenarios| == 2 && scenarios[0].id == "1" && scenarios[1].id == "2"
      ensures scenarioName == "" && !saveDialogOpen
    {
      scenarios := InitialScenarios;
      scenarioName := "";
      saveDialogOpen := false;
    }

    /** The name field's `onChange`. */
    method EditName(name: string)
      modifies this`scenarioName
      ensures scenarioName == name
    {
      scenarioName := name;
    }

    /** The dialog's `onOpenChange`. */
    method SetDialogOpen(open: bool)
      modifies this`saveDialogOpen
      ensures saveDialogOpen == open
    {
      saveDialogOpen := open;
    }

    /** `handleSave`: a blank name changes nothing; otherwise exactly one
        scenario, carrying the name as typed and the current parameters, is
        appended, the name is cleared and the dialog closed. */
    method Save(current: CurrentParameters, id: string, timestamp: string)
      modifies this
      ensures IsBlank(old(scenarioName)) ==>
        scenarios == old(scenarios) && scenarioName == old(scenarioName) && saveDialogOpen == old(saveDialogOpen)
      ensures !IsBlank(old(scenarioName)) ==>
        |scenarios| == |old(scenarios)| + 1 &&
        scenarios[..|old(scenarios)|] == old(scenarios) &&
        scenarios[|old(scenarios)|] == Scenario(id, old(scenarioName), current.tariff, current.globalPrice,
                                                current.yieldGap, current.volatilityIndex, timestamp) &&
        scenarioName == "" && !saveDialogOpen
    {
      if IsBlank(scenarioName) {
        return;
      }
      var newScenario := Scenario(id, scenarioName, current.tariff, current.globalPrice,
                                  current.yieldGap, current.volatilityIndex, timestamp);
      scenarios := scenarios + [newScenario];
      scenarioName := "";
      saveDialogOpen := false;
    }

    /** `handleDelete`: every entry with the given id goes, the rest stay. */
    method Delete(id: string)
      modifies this`scenarios
      ensures scenarios == RemoveId(old(scenarios), id)
      ensures forall i :: 0 <= i < |scenarios| ==> scenarios[i].id != id
      ensures forall s :: s in old(scenarios) && s.id != id ==> s in scenarios
      ensures |scenarios| <= |old(scenarios)|
    {
      ghost var before := scenarios;
      scenarios := RemoveId(scenarios, id);
      forall s | s in before || s in scenarios
        ensures s in scenarios <==> s in before && s.id != id
      {
        RemoveIdMembership(before, id, s);
      }
    }
  }

  /** A name of spaces only is rejected, as is the empty name. */
  lemma BlankNames()
    ensures IsBlank("") && IsBlank("   ") && IsBlank(" \t\n")
    ensures !IsBlank(" Plan B ")
  {
    assert !IsJsWhitespace(" Plan B "[1]);
  }
}
