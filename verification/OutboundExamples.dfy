/** Short runs that show where a bound is tight or a hoped-for law fails. */
module OutboundExamples {
  import opened Wrappers
  import opened Sums
  import opened Greedy
  import opened OutboundTables
  import opened OutboundSteps
  import opened OutboundInvariant
  import opened OutboundRuns
  import Fefo

  /** Twenty thousand bolts in storage and an empty packing bench. */
  const OPENING := State(
    [Location(0, "A1", Storage, false), Location(0, "P1", PackingArea, false)],
    [Balance("BOLT", 0, None, 20000.0, 0.0)], [], [], [], [], [], [], [], [], [])

  const PICKED := PickInput(0, Some(0), "BOLT", "", "", 20001.0, false)

  const OPENED := OPENING.(lists := [PickList(ForOrder, 0, Some(1), Open, false)])

  const BOLT_LINE := Line(0, "BOLT", 20000.0, 20000.0, Some(0), Some("A1"), None, 0.0, 0.0, 0.0, Pending)

  const ALLOCATED := OPENED.(balances := [Balance("BOLT", 0, None, 20000.0, 20000.0)], lines := [BOLT_LINE])

  const OVER_PICKED := ALLOCATED.(
    balances := [Balance("BOLT", 0, None, 0.0, 0.0), Balance("BOLT", 1, None, 20001.0, 0.0)],
    lines := [BOLT_LINE.(picked := 20001.0, status := PickedFull)],
    lists := [PickList(ForOrder, 0, Some(1), ListCompleted, false)])

  lemma AllocatesAll()
    ensures Next(OPENED, DoAllocate(0, "BOLT", 20000.0, true)) == ALLOCATED
  {
    var s := OPENED;
    assert Fefo.Allocatable(s.locations, s.balances[0], 0, "BOLT");
    assert Fefo.CandidatesBelow(s.locations, s.balances, 0, "BOLT", 0) == [];
    assert Fefo.CandidatesFor(s, 0, "BOLT") == [0];
    var room := Fefo.AvailableAt(s.balances);
    assert room(0) == 20000.0;
    assert Sum([0 as nat], room, 1) == 20000.0;
    assert Take([0 as nat], 0, room, 20000.0) == 20000.0;
    assert Fefo.ReservedRows(s.balances, [0], room, 20000.0, 1) == ALLOCATED.balances;
    assert Fefo.SliceLines(s, 0, [0], 20000.0, 1) == [BOLT_LINE];
    assert s.lines + [BOLT_LINE] == [BOLT_LINE];
  }

  lemma PicksTooMuch()
    ensures Next(ALLOCATED, DoPick(PICKED)) == OVER_PICKED
  {
    var s, t := ALLOCATED, OVER_PICKED;
    assert CheckPick(s, PICKED) == Ok(0);
    assert FindRow(ConsumeReserved(s.balances, 0, 20001.0), "BOLT", 1).None?;
    assert Adjust(ConsumeReserved(s.balances, 0, 20001.0), "BOLT", 1, 20001.0) == t.balances;
    assert s.lines[0 := BOLT_LINE.(picked := 20001.0, status := PickedFull)] == t.lines;
    assert !StillToPick(t.lines, 0);
    assert Pick(s, 0, 0, 20001.0) == t;
  }

  const OVER_PICK_RUN: seq<Step> := [DoOpenList(ForOrder, 0, 1), DoAllocate(0, "BOLT", 20000.0, true), DoPick(PICKED)]

  lemma RunsTo()
    ensures Run(OPENING, OVER_PICK_RUN) == OVER_PICKED
  {
    assert OVER_PICK_RUN[..2][..1] == OVER_PICK_RUN[..1] && OVER_PICK_RUN[..1][..0] == [];
    assert OPENING.lists + [PickList(ForOrder, 0, Some(1), Open, false)] == OPENED.lists;
    assert Run(OPENING, OVER_PICK_RUN[..1]) == Next(OPENING, OVER_PICK_RUN[0]) == OPENED;
    AllocatesAll();
    assert Run(OPENING, OVER_PICK_RUN[..2]) == ALLOCATED;
    PicksTooMuch();
  }

  /** Nothing shipped, and one bolt more in the warehouse than it opened with: without the over-pick
      term the conservation bound does not hold. The source row reserves nothing, although its only line is
      a bolt below zero. */
  lemma OverPickMakesStock()
    ensures Initial(OPENING)
    ensures var t := Run(OPENING, OVER_PICK_RUN);
            && t.ledger == [] && DriftOf(OPENING, t, "BOLT") == 1.0
            && |t.balances| == 2 && t.balances[0].reserved == 0.0 && Total(t.lines, OpenOn(0)) == -1.0
  {
    RunsTo();
    TotalOfTwo(OVER_PICKED.balances, ActualOf("BOLT"));
    assert Sum(OPENING.balances, ActualOf("BOLT"), 0) == 0.0;
    TotalOfOne(OVER_PICKED.lines, OpenOn(0));
  }
}
