module PlanChecks {
  // Which command plans the replay tool and the route mapper take, and what each of their warnings means.

  import opened Common
  import opened CommandPlan

  // ---------------------------------------------------------- the replay tool

  /** What a strict replay refuses and a lenient one warns about. */
  ghost predicate Warned(x: Complaint, cmds: seq<Command>, n: nat)
    requires n <= |cmds|
  {
    && x.at < n
    && var c := cmds[x.at];
       match x
       case UnknownType(_) => c.commandType.UnknownCommand?
       case BadDtype(_) => c.dtype.Some? && c.dtype.value != "f32" && c.dtype.value != "q8" && c.dtype.value != "q4"
       case BadGroupSize(_) => c.dtype == Some("q4") && c.groupSize.Some? && c.groupSize.value != 32 && c.groupSize.value != 64
  }

  /** On a tile of the plan, under an id that counts up from one, with a fence. */
  predicate Proper(cmds: seq<Command>, i: nat, tileCount: int)
    requires i < |cmds|
  {
    var c := cmds[i];
    && 0 <= c.tileId < tileCount && c.fenceId >= 0 && c.commandId >= 1
    && (i > 0 ==> cmds[i - 1].commandId < c.commandId)
  }

  ghost predicate Unwarned(cmds: seq<Command>, n: nat)
    requires n <= |cmds|
  {
    forall x :: !Warned(x, cmds, n)
  }

  lemma {:induction false} ComplaintsMean(cmds: seq<Command>, i: nat, x: Complaint)
    requires i < |cmds|
    ensures x in Complaints(i, cmds[i]) <==> x.at == i && Warned(x, cmds, i + 1)
    ensures x.at < i ==> (Warned(x, cmds, i + 1) <==> Warned(x, cmds, i))
  {
  }

  lemma {:induction false} ProperIs(cmds: seq<Command>, i: nat, tileCount: int)
    requires i < |cmds| && forall j :: 0 <= j < i ==> Proper(cmds, j, tileCount)
    ensures WellPlaced(cmds[i], PreviousId(cmds, i), tileCount) <==> Proper(cmds, i, tileCount)
  {
    if i > 0 {
      assert Proper(cmds, i - 1, tileCount);
    }
  }

  lemma {:induction false} UnwarnedNext(cmds: seq<Command>, i: nat)
    requires i < |cmds|
    ensures Unwarned(cmds, i + 1) <==> Unwarned(cmds, i) && Complaints(i, cmds[i]) == []
  {
    var found, next := Complaints(i, cmds[i]), i + 1;
    forall x
      ensures x in found <==> x.at == i && Warned(x, cmds, next)
      ensures x.at < i ==> (Warned(x, cmds, next) <==> Warned(x, cmds, i))
    {
      ComplaintsMean(cmds, i, x);
    }
    hide Complaints;
    if found != [] {
      assert found[0] in found;
    }
    if Unwarned(cmds, next) {
      forall x
        ensures !Warned(x, cmds, i)
      {
        assert !Warned(x, cmds, next);
      }
    }
    if Unwarned(cmds, i) && found == [] {
      forall x
        ensures !Warned(x, cmds, next)
      {
        assert !Warned(x, cmds, i) && x !in found;
      }
    }
  }

  lemma {:induction false} ChecksMean(cmds: seq<Command>, tileCount: int, strict: bool, n: nat, x: Complaint)
    requires n <= |cmds|
    ensures CheckCommands(cmds, tileCount, strict, n).Ok?
       <==> (forall i :: 0 <= i < n ==> Proper(cmds, i, tileCount)) && (strict ==> Unwarned(cmds, n))
    ensures CheckCommands(cmds, tileCount, strict, n).Ok? ==>
              (x in CheckCommands(cmds, tileCount, strict, n).value <==> Warned(x, cmds, n))
  {
    hide Complaints;
    hide WellPlaced;
    hide Proper;
    hide Warned;
    hide Unwarned;
    if n > 0 {
      ChecksMean(cmds, tileCount, strict, n - 1, x);
      UnwarnedNext(cmds, n - 1);
      ComplaintsMean(cmds, n - 1, x);
      WarnedBelow(cmds, n, x);
      WarnedBelow(cmds, n - 1, x);
      if forall i :: 0 <= i < n - 1 ==> Proper(cmds, i, tileCount) {
        ProperIs(cmds, n - 1, tileCount);
      }
    } else {
      NothingWarned(cmds);
    }
  }

  lemma {:induction false} WarnedBelow(cmds: seq<Command>, n: nat, x: Complaint)
    requires n <= |cmds|
    ensures Warned(x, cmds, n) ==> x.at < n
  {
  }

  lemma {:induction false} NothingWarned(cmds: seq<Command>)
    ensures Unwarned(cmds, 0) && forall x :: !Warned(x, cmds, 0)
  {
  }

  /** The replay tool. */
  lemma {:induction false} ReplayTakes(p: Plan, strict: bool, x: Complaint)
    ensures CheckPlan(p, strict).Ok?
       <==> && p.version == 1 && p.header.tileCount > 0 && (strict ==> p.header.status == "pass") && |p.commands| > 0
            && (forall i :: 0 <= i < |p.commands| ==> Proper(p.commands, i, p.header.tileCount))
            && (strict ==> Unwarned(p.commands, |p.commands|))
    ensures CheckPlan(p, strict).Ok? ==> (x in CheckPlan(p, strict).value <==> Warned(x, p.commands, |p.commands|))
  {
    ChecksMean(p.commands, p.header.tileCount, strict, |p.commands|, x);
    hide CheckCommands;
    hide Proper;
    hide Unwarned;
    hide Warned;
  }

  // --------------------------------------------------------- the route mapper

  /** A repeated id, or a type that has no route. */
  ghost predicate Noted(x: PlanWarning, cmds: seq<Command>, n: nat)
    requires n <= |cmds|
  {
    && x.at < n
    && match x
       case DuplicateId(i) => exists j :: 0 <= j < i && cmds[j].commandId == cmds[i].commandId
       case NoRouteForType(i) => cmds[i].commandType.UnknownCommand?
  }

  lemma {:induction false} MapperChecksMean(cmds: seq<Command>, tileCount: int, n: nat, x: PlanWarning)
    requires n <= |cmds| && MapperCheckCommands(cmds, tileCount, n).Ok?
    ensures x in MapperCheckCommands(cmds, tileCount, n).value <==> Noted(x, cmds, n)
  {
    hide MapperWarnings;
    hide Noted;
    if n > 0 {
      MapperChecksMean(cmds, tileCount, n - 1, x);
      NotedNext(cmds, n - 1, x);
    } else {
      NothingNoted(cmds, x);
    }
  }

  lemma {:induction false} NothingNoted(cmds: seq<Command>, x: PlanWarning)
    ensures !Noted(x, cmds, 0)
  {
  }

  lemma {:induction false} NotedNext(cmds: seq<Command>, i: nat, x: PlanWarning)
    requires i < |cmds|
    ensures Noted(x, cmds, i + 1) <==> Noted(x, cmds, i) || x in MapperWarnings(cmds, i)
  {
    var again := exists j :: 0 <= j < i && cmds[j].commandId == cmds[i].commandId;
    assert x in MapperWarnings(cmds, i) <==> (x == DuplicateId(i) && again) || (x == NoRouteForType(i) && cmds[i].commandType.UnknownCommand?);
    hide MapperWarnings;
  }

  /** The route mapper. */
  lemma {:induction false} MapperTakes(p: Plan, strict: bool, x: PlanWarning)
    ensures MapperCheck(p, strict).Ok?
       <==> && p.version == 1 && p.header.tileCount > 0 && (strict ==> p.header.status == "ok")
            && forall i :: 0 <= i < |p.commands| ==> 0 <= p.commands[i].tileId < p.header.tileCount
    ensures MapperCheck(p, strict).Ok? ==> (x in MapperCheck(p, strict).value <==> Noted(x, p.commands, |p.commands|))
  {
    MapperAccepts(p.commands, p.header.tileCount, |p.commands|);
    if MapperCheck(p, strict).Ok? {
      MapperChecksMean(p.commands, p.header.tileCount, |p.commands|, x);
    }
    hide MapperCheckCommands;
    hide Noted;
  }
}
