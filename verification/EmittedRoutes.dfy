module EmittedRoutes {
  // Every route of a generated report, by the command it was made from, and the header's estimates in terms of the plan.

  import opened Common
  import opened Tally
  import opened CommandPlan
  import opened Routes
  import opened RouteBuilding
  import opened RouteTheorems
  import G = GeneratedReports

  // ----------------------------------------------------- what a command sends

  /** Barriers always travel; the other packets need another tile to go to. */
  predicate HasRoute(tileCount: nat, c: Command) {
    match c.commandType
    case TileBarrier => true
    case ValidateTensor => tileCount >= 2
    case QueryCounters => tileCount >= 2
    case TraceSnapshot => tileCount >= 2
    case FabricSend => tileCount >= 2
    case FabricReduce => tileCount >= 2
    case _ => false
  }

  /** The size of a send or reduce: the command's own, else the one on record for its tensor id, else for its name,
      else 1024. */
  function SizeOf(bytes: TensorBytes, c: Command): int {
    if c.totalBytes != 0 then c.totalBytes
    else if c.tensorId.Some? && ById(c.tensorId.value) in bytes then bytes[ById(c.tensorId.value)]
    else if c.tensorName.Some? && ByName(c.tensorName.value) in bytes then bytes[ByName(c.tensorName.value)]
    else 1024
  }

  /** Whether some size is on record. */
  predicate SizeKnown(bytes: TensorBytes, c: Command) {
    c.totalBytes != 0 || (c.tensorId.Some? && ById(c.tensorId.value) in bytes)
    || (c.tensorName.Some? && ByName(c.tensorName.value) in bytes)
  }

  function BytesSent(tileCount: nat, bytes: TensorBytes, c: Command): int {
    match c.commandType
    case ValidateTensor => if tileCount >= 2 then 64 else 0
    case QueryCounters => if tileCount >= 2 then 64 else 0
    case TraceSnapshot => if tileCount >= 2 then 64 else 0
    case FabricSend => if tileCount >= 2 then SizeOf(bytes, c) else 0
    case FabricReduce => if tileCount >= 2 then SizeOf(bytes, c) else 0
    case _ => 0
  }

  function RouteCount(tileCount: nat): Command -> int {
    (c: Command) => if HasRoute(tileCount, c) then 1 else 0
  }

  function ByteCount(tileCount: nat, bytes: TensorBytes): Command -> int {
    (c: Command) => BytesSent(tileCount, bytes, c)
  }

  function PacketCount(tileCount: nat, bytes: TensorBytes): Command -> int {
    (c: Command) => if BytesSent(tileCount, bytes, c) > 0 then 1 else 0
  }

  ghost predicate StandsAt(text: string, word: string, i: int) {
    0 <= i <= |text| - |word| && text[i..i + |word|] == word
  }

  ghost predicate Contains(text: string, word: string) {
    exists i :: StandsAt(text, word, i)
  }

  /** How partial results are combined: by the first of four words the notes contain, else as a sum. */
  ghost predicate CombinedBy(notes: string, b: Behavior) {
    if Contains(notes, "sum") then b == SumUp
    else if Contains(notes, "concat") then b == Concat
    else if Contains(notes, "max") then b == Max
    else if Contains(notes, "topk") then b == TopK
    else b == SumUp
  }

  ghost predicate Increasing(s: seq<int>) {
    forall i, j :: 0 <= i < j < |s| ==> s[i] < s[j]
  }

  /** What every route takes over from its command. */
  ghost predicate SentFor(r: Route, tileCount: nat, c: Command, id: int) {
    && r.routeId == id && r.sourceTile == c.tileId && r.sourceCommandId == c.commandId && r.dependencyFence == c.fenceId
    && r.status.Healthy? && r.packetCount == (if r.payloadBytes > 0 then 1 else 0)
    && r.traceId == (if c.commandType.TraceSnapshot? then c.commandId else 0)
    && r.sourceTensor == (if c.commandType.FabricSend? || c.commandType.FabricReduce? then c.tensorName else None)
    && r.ordering == (if c.commandType.TileBarrier? then Barriered else InOrder)
  }

  /** To all other tiles, and with a barrier to the sender as well. */
  ghost predicate Reaches(r: Route, tileCount: nat, c: Command) {
    && Increasing(r.destinationTiles)
    && forall t :: t in r.destinationTiles <==> 0 <= t < tileCount && (t != c.tileId || c.commandType.TileBarrier?)
  }

  /** The route a command is answered with. */
  ghost predicate Answers(r: Route, tileCount: nat, bytes: TensorBytes, c: Command, id: int, reduction: int) {
    && SentFor(r, tileCount, c, id) && Reaches(r, tileCount, c)
    && match c.commandType
       case ValidateTensor => r.routeType == ControlAck && r.payloadBytes == 64 && Uncombined(r)
       case QueryCounters => r.routeType == ControlAck && r.payloadBytes == 64 && Uncombined(r)
       case TraceSnapshot => r.routeType == TraceEvent && r.payloadBytes == 64 && Uncombined(r)
       case TileBarrier => r.routeType == BarrierRoute && r.payloadBytes == 0 && Uncombined(r)
       case FabricSend => r.routeType == ActivationSend && r.payloadBytes == SizeOf(bytes, c) && Uncombined(r)
       case FabricReduce =>
         && r.routeType == PartialReduce && r.payloadBytes == SizeOf(bytes, c)
         && r.reductionId == reduction && CombinedBy(c.notes, r.behavior)
       case _ => false
  }

  ghost predicate Uncombined(r: Route) {
    r.reductionId == 0 && r.behavior.NoReduction?
  }

  // ----------------------------------------------------------- one command

  lemma {:induction false} MentionsMeans(text: string, word: string)
    ensures Mentions(text, word) <==> Contains(text, word)
  {
    if word <= text {
      assert StandsAt(text, word, 0);
    } else if |text| > 0 {
      MentionsMeans(text[1..], word);
      if Mentions(text[1..], word) {
        var i :| StandsAt(text[1..], word, i);
        ShiftedSlice(text, i, |word|);
        assert StandsAt(text, word, i + 1);
      }
      if Contains(text, word) {
        var i :| StandsAt(text, word, i);
        NotAtStart(text, word, i);
        ShiftedSlice(text, i - 1, |word|);
        assert StandsAt(text[1..], word, i - 1);
      }
    }
  }

  lemma {:induction false} ShiftedSlice(text: string, i: nat, n: nat)
    requires i + n < |text|
    ensures text[1..][i..i + n] == text[i + 1..i + 1 + n]
  {
  }

  lemma {:induction false} NotAtStart(text: string, word: string, i: int)
    requires StandsAt(text, word, i) && !(word <= text)
    ensures i > 0
  {
  }

  lemma {:induction false} BehaviorMeans(notes: string)
    ensures CombinedBy(notes, BehaviorFor(notes))
  {
    MentionsMeans(notes, "sum");
    MentionsMeans(notes, "concat");
    MentionsMeans(notes, "max");
    MentionsMeans(notes, "topk");
    hide Mentions;
    hide Contains;
  }

  lemma {:induction false} PayloadMeans(bytes: TensorBytes, c: Command)
    ensures Payload(bytes, c) == SizeOf(bytes, c)
    ensures KnownPayload(bytes, c) != 0 <==> SizeKnown(bytes, c)
  {
  }

  lemma {:induction false} TilesIncrease(n: nat, skip: int)
    ensures Increasing(AllTiles(n)) && Increasing(OtherTiles(n, skip))
  {
    if n > 0 {
      TilesIncrease(n - 1, skip);
      var all, others := AllTiles(n - 1), OtherTiles(n - 1, skip);
      assert forall i :: 0 <= i < |all| ==> all[i] in all;
      assert forall i :: 0 <= i < |others| ==> others[i] in others;
    }
  }

  lemma {:induction false} EmissionMeans(tileCount: nat, bytes: TensorBytes, c: Command, reductions: nat, id: int)
    requires 0 <= c.tileId < tileCount
    ensures var route := Emission(tileCount, bytes, c, reductions).0;
            && (route.Some? <==> HasRoute(tileCount, c))
            && (route.Some? ==> Answers(Completed(route.value, id), tileCount, bytes, c, id, reductions + 1))
            && (route.Some? && c.commandType.FabricReduce? <==> tileCount >= 2 && c.commandType.FabricReduce?)
  {
    OthersExist(tileCount, c.tileId);
    TilesIncrease(tileCount, c.tileId);
    PayloadMeans(bytes, c);
    BehaviorMeans(c.notes);
    hide OtherTiles;
    hide AllTiles;
    hide Increasing;
    hide KnownPayload;
    hide Payload;
    hide SizeOf;
    hide BehaviorFor;
    hide CombinedBy;
    hide PayloadWarning;
  }

  // -------------------------------------------------------------- all of them

  /** The routes are those of the commands that have one, in order, numbered from one; reductions are numbered too. */
  ghost predicate AnswersAll(rs: seq<Route>, tileCount: nat, bytes: TensorBytes, cmds: seq<Command>, n: nat)
    requires n <= |cmds|
  {
    && |rs| == Total(cmds[..n], RouteCount(tileCount))
    && forall i :: 0 <= i < n && HasRoute(tileCount, cmds[i]) ==> AnsweredAt(rs, tileCount, bytes, cmds, i)
  }

  ghost predicate AnsweredAt(rs: seq<Route>, tileCount: nat, bytes: TensorBytes, cmds: seq<Command>, i: nat)
    requires i < |cmds|
  {
    var k := Total(cmds[..i], RouteCount(tileCount));
    0 <= k < |rs| && Answers(rs[k], tileCount, bytes, cmds[i], k + 1, Total(cmds[..i], G.Reduces(tileCount)) + 1)
  }

  lemma {:induction false} AnsweredStays(rs: seq<Route>, r: Route, tileCount: nat, bytes: TensorBytes, cmds: seq<Command>, i: nat)
    requires i < |cmds| && AnsweredAt(rs, tileCount, bytes, cmds, i)
    ensures AnsweredAt(rs + [r], tileCount, bytes, cmds, i)
  {
    hide Answers;
    hide Total;
  }

  /** The mapping loop. */
  lemma {:induction false} MapEmits(tileCount: nat, bytes: TensorBytes, cmds: seq<Command>, n: nat)
    requires n <= |cmds| && OnTiles(cmds, tileCount)
    ensures var m := MapCommands(tileCount, bytes, cmds, n);
            AnswersAll(m.routes, tileCount, bytes, cmds, n) && m.reductions == Total(cmds[..n], G.Reduces(tileCount))
  {
    assert n > 0 ==> 0 <= cmds[n - 1].tileId < tileCount;
    hide *;
    if n > 0 {
      MapEmits(tileCount, bytes, cmds, n - 1);
      StepEmits(tileCount, bytes, MapCommands(tileCount, bytes, cmds, n - 1), cmds, n - 1);
      MapUnfolds(tileCount, bytes, cmds, n);
    } else {
      NoneYet(tileCount, bytes, cmds);
    }
  }

  lemma {:induction false} MapUnfolds(tileCount: nat, bytes: TensorBytes, cmds: seq<Command>, n: nat)
    requires 0 < n <= |cmds|
    ensures MapCommands(tileCount, bytes, cmds, n) == StepMap(tileCount, bytes, MapCommands(tileCount, bytes, cmds, n - 1), cmds[n - 1])
  {
    hide StepMap;
  }

  lemma {:induction false} StepUnfolds(tileCount: nat, bytes: TensorBytes, m: Mapped, c: Command)
    ensures var next, route := StepMap(tileCount, bytes, m, c), Emission(tileCount, bytes, c, m.reductions).0;
            && next.routes == (if route.Some? then m.routes + [Completed(route.value, |m.routes| + 1)] else m.routes)
            && next.reductions == if route.Some? && c.commandType.FabricReduce? then m.reductions + 1 else m.reductions
  {
    hide Emission;
    hide Completed;
  }

  /** One round. */
  lemma {:induction false} StepEmits(tileCount: nat, bytes: TensorBytes, m: Mapped, cmds: seq<Command>, n: nat)
    requires n < |cmds| && 0 <= cmds[n].tileId < tileCount
    requires AnswersAll(m.routes, tileCount, bytes, cmds, n) && m.reductions == Total(cmds[..n], G.Reduces(tileCount))
    ensures var next := StepMap(tileCount, bytes, m, cmds[n]);
            AnswersAll(next.routes, tileCount, bytes, cmds, n + 1) && next.reductions == Total(cmds[..n + 1], G.Reduces(tileCount))
  {
    hide *;
    EmissionMeans(tileCount, bytes, cmds[n], m.reductions, |m.routes| + 1);
    StepUnfolds(tileCount, bytes, m, cmds[n]);
    CountsNext(tileCount, cmds, n);
    var route := Emission(tileCount, bytes, cmds[n], m.reductions).0;
    if route.Some? {
      AnswersMore(m.routes, Completed(route.value, |m.routes| + 1), tileCount, bytes, cmds, n);
    } else {
      AnswersSkip(m.routes, tileCount, bytes, cmds, n);
    }
  }

  lemma {:induction false} NoneYet(tileCount: nat, bytes: TensorBytes, cmds: seq<Command>)
    ensures AnswersAll(MapCommands(tileCount, bytes, cmds, 0).routes, tileCount, bytes, cmds, 0)
    ensures MapCommands(tileCount, bytes, cmds, 0).reductions == Total(cmds[..0], G.Reduces(tileCount))
  {
  }

  lemma {:induction false} CountsNext(tileCount: nat, cmds: seq<Command>, n: nat)
    requires n < |cmds|
    ensures Total(cmds[..n + 1], RouteCount(tileCount)) == Total(cmds[..n], RouteCount(tileCount)) + if HasRoute(tileCount, cmds[n]) then 1 else 0
    ensures Total(cmds[..n + 1], G.Reduces(tileCount))
         == Total(cmds[..n], G.Reduces(tileCount)) + if tileCount >= 2 && cmds[n].commandType.FabricReduce? then 1 else 0
  {
    TotalTake(cmds, RouteCount(tileCount), n);
    TotalTake(cmds, G.Reduces(tileCount), n);
    hide Total;
    hide HasRoute;
  }

  lemma {:induction false} AnswersMore(rs: seq<Route>, r: Route, tileCount: nat, bytes: TensorBytes, cmds: seq<Command>, n: nat)
    requires n < |cmds| && AnswersAll(rs, tileCount, bytes, cmds, n) && HasRoute(tileCount, cmds[n])
    requires Answers(r, tileCount, bytes, cmds[n], |rs| + 1, Total(cmds[..n], G.Reduces(tileCount)) + 1)
    ensures AnswersAll(rs + [r], tileCount, bytes, cmds, n + 1)
  {
    CountsNext(tileCount, cmds, n);
    assert AnsweredAt(rs + [r], tileCount, bytes, cmds, n);
    hide Answers;
    hide AnsweredAt;
    hide Total;
    hide HasRoute;
    forall i | 0 <= i < n && HasRoute(tileCount, cmds[i])
      ensures AnsweredAt(rs + [r], tileCount, bytes, cmds, i)
    {
      AnsweredStays(rs, r, tileCount, bytes, cmds, i);
    }
  }

  lemma {:induction false} AnswersSkip(rs: seq<Route>, tileCount: nat, bytes: TensorBytes, cmds: seq<Command>, n: nat)
    requires n < |cmds| && AnswersAll(rs, tileCount, bytes, cmds, n) && !HasRoute(tileCount, cmds[n])
    ensures AnswersAll(rs, tileCount, bytes, cmds, n + 1)
  {
    CountsNext(tileCount, cmds, n);
    hide AnsweredAt;
    hide Total;
    hide HasRoute;
  }

  // ------------------------------------------------------------ the whole report

  lemma {:induction false} MapAddsUp(tileCount: nat, bytes: TensorBytes, cmds: seq<Command>, n: nat)
    requires n <= |cmds| && OnTiles(cmds, tileCount)
    ensures var rs := MapCommands(tileCount, bytes, cmds, n).routes;
            && Total(rs, PayloadOf) == Total(cmds[..n], ByteCount(tileCount, bytes))
            && Total(rs, PacketsOf) == Total(cmds[..n], PacketCount(tileCount, bytes))
  {
    assert n > 0 ==> 0 <= cmds[n - 1].tileId < tileCount;
    hide *;
    if n > 0 {
      MapAddsUp(tileCount, bytes, cmds, n - 1);
      StepAddsUp(tileCount, bytes, MapCommands(tileCount, bytes, cmds, n - 1), cmds[n - 1]);
      MapUnfolds(tileCount, bytes, cmds, n);
      TotalTake(cmds, ByteCount(tileCount, bytes), n - 1);
      TotalTake(cmds, PacketCount(tileCount, bytes), n - 1);
    } else {
      NothingSent(tileCount, bytes, cmds);
    }
  }

  lemma {:induction false} StepAddsUp(tileCount: nat, bytes: TensorBytes, m: Mapped, c: Command)
    requires 0 <= c.tileId < tileCount
    ensures var rs := StepMap(tileCount, bytes, m, c).routes;
            && Total(rs, PayloadOf) == Total(m.routes, PayloadOf) + ByteCount(tileCount, bytes)(c)
            && Total(rs, PacketsOf) == Total(m.routes, PacketsOf) + PacketCount(tileCount, bytes)(c)
  {
    hide *;
    EmissionMeans(tileCount, bytes, c, m.reductions, |m.routes| + 1);
    StepUnfolds(tileCount, bytes, m, c);
    var route := Emission(tileCount, bytes, c, m.reductions).0;
    if route.Some? {
      var r := Completed(route.value, |m.routes| + 1);
      AnswerSize(r, tileCount, bytes, c, |m.routes| + 1, m.reductions + 1);
      TotalSnoc(m.routes, r, PayloadOf);
      TotalSnoc(m.routes, r, PacketsOf);
    } else {
      NoAnswerSize(tileCount, bytes, c);
    }
  }

  lemma {:induction false} NothingSent(tileCount: nat, bytes: TensorBytes, cmds: seq<Command>)
    ensures var rs := MapCommands(tileCount, bytes, cmds, 0).routes;
            && Total(rs, PayloadOf) == 0 == Total(cmds[..0], ByteCount(tileCount, bytes))
            && Total(rs, PacketsOf) == 0 == Total(cmds[..0], PacketCount(tileCount, bytes))
  {
  }

  lemma {:induction false} AnswerSize(r: Route, tileCount: nat, bytes: TensorBytes, c: Command, id: int, reduction: int)
    requires Answers(r, tileCount, bytes, c, id, reduction) && HasRoute(tileCount, c)
    ensures PayloadOf(r) == ByteCount(tileCount, bytes)(c) && PacketsOf(r) == PacketCount(tileCount, bytes)(c)
  {
    hide SizeOf;
    hide Reaches;
    hide CombinedBy;
  }

  lemma {:induction false} NoAnswerSize(tileCount: nat, bytes: TensorBytes, c: Command)
    requires !HasRoute(tileCount, c)
    ensures ByteCount(tileCount, bytes)(c) == 0 == PacketCount(tileCount, bytes)(c)
  {
    hide SizeOf;
  }

  /** Every report the mapper makes: its routes answer the plan's commands one by one, and its header adds up what the
      commands send. */
  lemma {:induction false} ReportMeans(p: Plan, bytes: TensorBytes, strict: bool, rep: Report)
    requires MapPlan(p, bytes, strict) == Ok(rep)
    ensures var n, cmds := TilesOf(p), p.commands;
            && AnswersAll(rep.routes, n, bytes, cmds, |cmds|)
            && rep.header.routeCount == |rep.routes| == Total(cmds, RouteCount(n))
            && rep.header.payloadEstimate == Total(cmds, ByteCount(n, bytes))
            && rep.header.packetEstimate == Total(cmds, PacketCount(n, bytes))
            && rep.header.version == 1 && rep.header.tileCount == p.header.tileCount
  {
    var n, cmds := TilesOf(p), p.commands;
    HeaderUnfolds(p, bytes, strict, rep);
    hide *;
    G.ReportFacts(p, bytes, strict, rep);
    MapEmits(n, bytes, cmds, |cmds|);
    MapAddsUp(n, bytes, cmds, |cmds|);
    AnswersSize(rep.routes, n, bytes, cmds);
    assert cmds[..|cmds|] == cmds;
  }

  lemma {:induction false} HeaderUnfolds(p: Plan, bytes: TensorBytes, strict: bool, rep: Report)
    requires MapPlan(p, bytes, strict) == Ok(rep)
    ensures rep.header.routeCount == |rep.routes| && rep.header.version == 1 && rep.header.tileCount == p.header.tileCount
  {
    G.ReportFacts(p, bytes, strict, rep);
    hide MapCommands;
    hide MapperCheckCommands;
    hide Summaries;
    hide Total;
  }

  lemma {:induction false} AnswersSize(rs: seq<Route>, tileCount: nat, bytes: TensorBytes, cmds: seq<Command>)
    requires AnswersAll(rs, tileCount, bytes, cmds, |cmds|)
    ensures |rs| == Total(cmds, RouteCount(tileCount))
  {
    assert cmds[..|cmds|] == cmds;
    hide AnsweredAt;
    hide Total;
    hide HasRoute;
  }

  /** The mapper has something to warn about: an id used before, a type it does not know, nowhere to send to, or a
      size that is on no record. */
  ghost predicate Worrying(tileCount: int, bytes: TensorBytes, cmds: seq<Command>, i: nat)
    requires i < |cmds|
  {
    var c := cmds[i];
    || (exists j :: 0 <= j < i && cmds[j].commandId == c.commandId)
    || match c.commandType
       case UnknownCommand(_) => true
       case ValidateTensor => tileCount == 1
       case QueryCounters => tileCount == 1
       case TraceSnapshot => tileCount == 1
       case FabricSend => tileCount == 1 || !SizeKnown(bytes, c)
       case FabricReduce => tileCount == 1 || !SizeKnown(bytes, c)
       case _ => false
  }

  lemma {:induction false} WorryingIs(tileCount: int, bytes: TensorBytes, cmds: seq<Command>, i: nat)
    requires i < |cmds|
    ensures Worrying(tileCount, bytes, cmds, i) <==> !Quiet(tileCount, bytes, cmds, i)
  {
    PayloadMeans(bytes, cmds[i]);
    hide KnownPayload;
    hide SizeKnown;
  }

  /** A report's status, and what a strict run makes. */
  lemma {:induction false} StatusMeans(p: Plan, bytes: TensorBytes)
    ensures var worry := exists i :: 0 <= i < |p.commands| && Worrying(TilesOf(p), bytes, p.commands, i);
            && (MapPlan(p, bytes, false).Ok? ==>
                  (MapPlan(p, bytes, false).value.header.status.Pass? <==> !worry))
            && (MapPlan(p, bytes, true).Ok? <==> MapPlan(p, bytes, false).Ok? && p.header.status == "ok" && !worry)
  {
    var n, cmds := TilesOf(p), p.commands;
    ReportPassesIff(p, bytes);
    forall i | 0 <= i < |cmds|
      ensures Worrying(n, bytes, cmds, i) <==> !Quiet(n, bytes, cmds, i)
    {
      WorryingIs(n, bytes, cmds, i);
    }
    hide MapPlan;
    hide Worrying;
    hide Quiet;
  }
}
