/**
 * The mirror run: read the source tournament, create it on the destination,
 * then for every source round in order create it and, when the skip policy
 * allows, copy its PGN text across. The two services are an oracle: each
 * request is answered by a function of the request, and every request the
 * run issues is recorded, in order, in the run's call trace.
 */
module Mirror {
  import opened Wrappers
  import opened Source
  import opened Urls
  import opened Forms
  import opened Trace

  /** A service reply: the decoded body, or a failed request (error status or unreadable body). */
  datatype Reply<T> = Ok(value: T) | HttpError

  /** What the mirror reads from the tournament-creation reply: the id inside its `tour` object. */
  datatype TourReply = TourReply(id: Option<string>)

  /** What the mirror reads from a round-creation reply: the id inside its `round` object, and its own `id`. */
  datatype RoundReply = RoundReply(roundId: Option<string>, id: Option<string>)

  /**
   * The source and destination services. Round creation is also told the
   * position of the round being created, so that the destination may hand
   * out a fresh identifier each time.
   */
  datatype Service = Service(
    readTournament: string -> Reply<SourceTournament>,
    createTournament: (string, Form) -> Reply<TourReply>,
    createRound: (nat, string, Form) -> Reply<RoundReply>,
    readPgn: string -> Reply<string>,
    pushPgn: (string, string) -> Reply<PushResult>)

  /**
   * How a run ends: the token is missing (nothing is sent), a request failed
   * (the run stops there), the created tournament has no identifier, or the
   * run completes with its summary.
   */
  datatype Exit =
    | MissingToken
    | Failed
    | NoLocalTournament
    | Completed(localTournamentId: string, rounds: seq<Entry>)

  datatype Run = Run(calls: seq<Call>, exit: Exit)

  /**
   * The local round id: the id inside the reply's `round` object, or else
   * the reply's own `id`, kept only when it is usable (present and
   * non-empty).
   */
  function LocalRoundId(reply: RoundReply): (id: Option<string>)
    ensures id.Some? <==> Present(reply.roundId) || Present(reply.id)
    ensures id.Some? ==> id.value != ""
    ensures Present(reply.roundId) ==> id == reply.roundId
    ensures !Present(reply.roundId) && Present(reply.id) ==> id == reply.id
  {
    if Present(reply.roundId) then reply.roundId
    else if Present(reply.id) then reply.id
    else None
  }

  // ---------------------------------------------------------------------
  // One round
  // ---------------------------------------------------------------------

  /** What the round loop works with once the local tournament exists. */
  datatype Plan = Plan(
    svc: Service,
    base: string,
    tourId: string,
    tiebreaks: Option<seq<string>>,
    rounds: seq<SourceRound>)

  /** The state a source round ends in. */
  datatype RoundFate =
    | CreateFailed
    | SkippedNoId
    | SkippedStatus(localId: string)
    | FetchFailed(localId: string)
    | PushFailed(localId: string, pgn: string)
    | Pushed(localId: string, pgn: string, result: PushResult)
  {
    /** The run stops after this round. */
    predicate Aborts()
    {
      CreateFailed? || FetchFailed? || PushFailed?
    }

    /** The round's PGN was requested from the source. */
    predicate Fetched()
    {
      FetchFailed? || PushFailed? || Pushed?
    }
  }

  /** The creation request for round `i`. */
  function CreateCall(p: Plan, i: nat): Call
    requires i < |p.rounds|
  {
    PostRound(NewRoundUrl(p.base, p.tourId), RoundForm(p.rounds[i], p.tiebreaks))
  }

  /** The destination's answer to the creation of round `i`. */
  function CreateReply(p: Plan, i: nat): Reply<RoundReply>
    requires i < |p.rounds|
  {
    var c := CreateCall(p, i);
    p.svc.createRound(i, c.url, c.form)
  }

  /** The local round exists and has a usable identifier. */
  predicate Created(p: Plan, i: nat)
    requires i < |p.rounds|
  {
    CreateReply(p, i).Ok? && LocalRoundId(CreateReply(p, i).value).Some?
  }

  /** How round `i` ends, following the mirror's checks in order. */
  function Fate(p: Plan, i: nat): RoundFate
    requires i < |p.rounds|
  {
    var round := p.rounds[i];
    match CreateReply(p, i)
    case HttpError => CreateFailed
    case Ok(reply) =>
      match LocalRoundId(reply)
      case None => SkippedNoId
      case Some(localId) =>
        if !ShouldPush(round) then SkippedStatus(localId)
        else
          match p.svc.readPgn(PgnUrl(round.id))
          case HttpError => FetchFailed(localId)
          case Ok(pgn) =>
            match p.svc.pushPgn(PushUrl(p.base, localId), pgn)
            case HttpError => PushFailed(localId, pgn)
            case Ok(result) => Pushed(localId, pgn, result)
  }

  /** The requests issued for round `i`, by how it ends. */
  function RoundCalls(p: Plan, i: nat): seq<Call>
    requires i < |p.rounds|
  {
    var round := p.rounds[i];
    match Fate(p, i)
    case FetchFailed(_) => [CreateCall(p, i), GetPgn(PgnUrl(round.id))]
    case PushFailed(localId, pgn) =>
      [CreateCall(p, i), GetPgn(PgnUrl(round.id)), PostPgn(PushUrl(p.base, localId), pgn)]
    case Pushed(localId, pgn, _) =>
      [CreateCall(p, i), GetPgn(PgnUrl(round.id)), PostPgn(PushUrl(p.base, localId), pgn)]
    case _ => [CreateCall(p, i)]
  }

  /**
   * The requests issued for round `i`: always its creation first; the PGN
   * read exactly when the round was created with a usable id and is
   * finished and not ongoing; the push exactly when that read succeeded,
   * addressed to the local round and carrying the text read, unchanged.
   */
  lemma RoundCallsPolicy(p: Plan, i: nat)
    requires i < |p.rounds|
    ensures var calls := RoundCalls(p, i);
      && 1 <= |calls| <= 3
      && calls[0] == CreateCall(p, i)
      && (|calls| > 1 <==> Created(p, i) && ShouldPush(p.rounds[i]))
      && (|calls| > 1 ==> calls[1] == GetPgn(PgnUrl(p.rounds[i].id)))
      && (|calls| > 2 <==> |calls| > 1 && p.svc.readPgn(PgnUrl(p.rounds[i].id)).Ok?)
      && (|calls| > 2 ==>
            calls[2] == PostPgn(PushUrl(p.base, LocalRoundId(CreateReply(p, i).value).value),
                                p.svc.readPgn(PgnUrl(p.rounds[i].id)).value))
  {
  }

  /** The summary entry of a pushed round. */
  function EntryFor(p: Plan, i: nat): Entry
    requires i < |p.rounds| && Fate(p, i).Pushed?
  {
    Entry(p.rounds[i].id, Fate(p, i).localId, Fate(p, i).result)
  }

  /** What round `i` adds to the summary: one entry if pushed, nothing otherwise. */
  function EntryOf(p: Plan, i: nat): seq<Entry>
    requires i < |p.rounds|
  {
    if Fate(p, i).Pushed? then [EntryFor(p, i)] else []
  }

  /**
   * The skip policy: the PGN of a round is fetched only when the round was
   * created with a usable id and its status is finished; an ongoing round is
   * never fetched; a round contributes to the summary only when pushed.
   */
  lemma SkipPolicy(p: Plan, i: nat)
    requires i < |p.rounds|
    ensures Fate(p, i).Fetched() <==> Created(p, i) && ShouldPush(p.rounds[i])
    ensures IsTrue(p.rounds[i].ongoing) ==> !Fate(p, i).Fetched()
    ensures !IsTrue(p.rounds[i].finished) ==> !Fate(p, i).Fetched()
    ensures |EntryOf(p, i)| == 1 <==> Fate(p, i).Pushed?
    ensures Fate(p, i).Pushed? ==> StatusOf(p.rounds[i]) == Finished && Created(p, i)
  {
  }

  /** What round `i` contributes to the run. */
  function RoundStep(p: Plan, i: nat): Step
    requires i < |p.rounds|
  {
    Step(RoundCalls(p, i), EntryOf(p, i), Fate(p, i).Aborts())
  }

  /** Every round's step has the shape the round loop relies on. */
  lemma RoundStepShaped(p: Plan, i: nat)
    requires i < |p.rounds|
    ensures Shaped(RoundStep(p, i))
    ensures RoundStep(p, i).calls[0] == CreateCall(p, i)
    ensures RoundStep(p, i).entries != [] <==> Fate(p, i).Pushed?
    ensures Fate(p, i).Pushed? ==> RoundStep(p, i).entries[0] == EntryFor(p, i)
  {
  }

  // ---------------------------------------------------------------------
  // The round loop
  // ---------------------------------------------------------------------

  /** The steps of all source rounds, in source order. */
  function Steps(p: Plan): (steps: seq<Step>)
    ensures |steps| == |p.rounds|
    ensures forall i :: 0 <= i < |p.rounds| ==> steps[i] == RoundStep(p, i)
  {
    seq(|p.rounds|, i requires 0 <= i < |p.rounds| => RoundStep(p, i))
  }

  lemma AllShaped(p: Plan)
    ensures forall i :: 0 <= i < |Steps(p)| ==> Shaped(Steps(p)[i])
  {
    forall i | 0 <= i < |Steps(p)| ensures Shaped(Steps(p)[i]) {
      RoundStepShaped(p, i);
    }
  }

  /** The trace and summary of the round loop over all rounds. */
  function Loop(p: Plan): Progress
  {
    Fold(Steps(p))
  }

  /**
   * Counting the loop's requests: one creation per round looked at; one
   * push per PGN read and one summary entry per push, except that a failed
   * read or push that stops the run leaves its request without a partner.
   * When no request failed, every round was created.
   */
  lemma CallCounts(p: Plan)
    ensures var r := Loop(p);
      && |r.entries| <= Count(r.calls, PgnPush) <= Count(r.calls, PgnRead) <= |r.entries| + 1
      && Count(r.calls, RoundCreate) <= |p.rounds|
      && Count(r.calls, TournamentRead) == 0 && Count(r.calls, TournamentCreate) == 0
      && (!r.aborted ==>
            Count(r.calls, RoundCreate) == |p.rounds| &&
            Count(r.calls, PgnRead) == Count(r.calls, PgnPush) == |r.entries|)
  {
    AllShaped(p);
    FoldCounts(Steps(p));
  }

  /**
   * Rounds are created one request each, in source order: the creation
   * requests of the loop are those of the first rounds, all of them when
   * no request failed.
   */
  lemma CreatesInSourceOrder(p: Plan)
    ensures var posts := Posted(Loop(p).calls);
      && |posts| <= |p.rounds|
      && (forall j :: 0 <= j < |posts| ==> j < |p.rounds| && posts[j] == CreateCall(p, j))
      && (!Loop(p).aborted ==> |posts| == |p.rounds|)
  {
    AllShaped(p);
    FoldPosted(Steps(p));
    forall j | 0 <= j < |Posted(Loop(p).calls)| ensures j < |p.rounds| && Posted(Loop(p).calls)[j] == CreateCall(p, j) {
      RoundStepShaped(p, j);
    }
  }

  /**
   * When no request failed, the summary lists exactly the pushed rounds, in
   * source order, each with its source id, its local id and its push reply.
   */
  lemma SummaryIsPushedRounds(p: Plan)
    ensures var r := Loop(p); var idx := Contributors(Steps(p));
      && (forall i :: 0 <= i < |p.rounds| && Fate(p, i).Pushed? ==> i in idx)
      && (forall k, l :: 0 <= k < l < |idx| ==> idx[k] < idx[l])
      && (!r.aborted ==>
            |r.entries| == |idx| &&
            forall k :: 0 <= k < |idx| ==>
              idx[k] < |p.rounds| && Fate(p, idx[k]).Pushed? && r.entries[k] == EntryFor(p, idx[k]))
  {
    var steps := Steps(p);
    var idx := Contributors(steps);
    AllShaped(p);
    ContributorsExact(steps);
    FoldEntries(steps);
    forall i | 0 <= i < |p.rounds| ensures steps[i].entries != [] <==> Fate(p, i).Pushed? {
      RoundStepShaped(p, i);
    }
    forall k | 0 <= k < |idx|
      ensures idx[k] < |p.rounds| && Fate(p, idx[k]).Pushed? && steps[idx[k]].entries[0] == EntryFor(p, idx[k])
    {
      assert idx[k] < |steps| && steps[idx[k]].entries != [];
      RoundStepShaped(p, idx[k]);
    }
  }

  // ---------------------------------------------------------------------
  // The whole run
  // ---------------------------------------------------------------------

  /** The round loop's plan for a created tournament, or nothing before that point. */
  function PlanOf(token: Option<string>, tourId: Option<string>, base: string, svc: Service): Option<Plan>
  {
    if !Present(token) then None
    else
      match svc.readTournament(TournamentUrl(tourId))
      case HttpError => None
      case Ok(tour) =>
        match svc.createTournament(NewTournamentUrl(base), TournamentForm(tour.tour))
        case HttpError => None
        case Ok(reply) =>
          if !Present(reply.id) then None
          else Some(Plan(svc, base, reply.id.value, tour.tiebreaks, tour.rounds.GetOr([])))
  }

  /**
   * The run as a whole. Without a token nothing is sent; otherwise the
   * tournament is read, then created; the rounds are looked at only when the
   * created tournament has a usable id.
   */
  function MirrorSpec(token: Option<string>, tourId: Option<string>, base: string, svc: Service): Run
  {
    if !Present(token) then Run([], MissingToken)
    else
      var tourUrl := TournamentUrl(tourId);
      match svc.readTournament(tourUrl)
      case HttpError => Run([GetTournament(tourUrl)], Failed)
      case Ok(tour) =>
        var newUrl := NewTournamentUrl(base);
        var form := TournamentForm(tour.tour);
        var head := [GetTournament(tourUrl), PostTournament(newUrl, form)];
        match svc.createTournament(newUrl, form)
        case HttpError => Run(head, Failed)
        case Ok(reply) =>
          if !Present(reply.id) then Run(head, NoLocalTournament)
          else
            var p := Plan(svc, base, reply.id.value, tour.tiebreaks, tour.rounds.GetOr([]));
            var done := Loop(p);
            Run(head + done.calls, if done.aborted then Failed else Completed(p.tourId, done.entries))
  }

  /**
   * How a run begins and ends: nothing is sent without a token; otherwise
   * the source tournament is read first, and a failed read ends the run
   * there; when it succeeds, the local tournament is created second, from
   * the tournament form; a creation reply without a usable id ends
   * the run with `NoLocalTournament` before any round request is sent, and
   * exactly then; the run completes exactly when the round
   * loop was reached and no request in it failed, and then its summary
   * names the local tournament and holds the loop's entries.
   */
  lemma RunShape(token: Option<string>, tourId: Option<string>, base: string, svc: Service)
    ensures var run := MirrorSpec(token, tourId, base, svc);
      var plan := PlanOf(token, tourId, base, svc);
      && (run.calls == [] <==> !Present(token))
      && (run.exit == MissingToken <==> !Present(token))
      && (Present(token) ==> run.calls[0] == GetTournament(TournamentUrl(tourId)))
      && (Present(token) && svc.readTournament(TournamentUrl(tourId)).HttpError? ==>
            run == Run([GetTournament(TournamentUrl(tourId))], Failed))
      && (Present(token) && svc.readTournament(TournamentUrl(tourId)).Ok? ==>
            && |run.calls| >= 2
            && run.calls[1] == PostTournament(NewTournamentUrl(base), TournamentForm(svc.readTournament(TournamentUrl(tourId)).value.tour)))
      && (run.exit.NoLocalTournament? ==> |run.calls| == 2 && run.calls[1].PostTournament?)
      && (run.exit.NoLocalTournament? <==>
            && Present(token)
            && svc.readTournament(TournamentUrl(tourId)).Ok?
            && var created := svc.createTournament(NewTournamentUrl(base), TournamentForm(svc.readTournament(TournamentUrl(tourId)).value.tour));
               created.Ok? && !Present(created.value.id))
      && (plan.None? ==> |run.calls| <= 2 && !run.exit.Completed? && forall c | c in run.calls :: !c.PostRound?)
      && (run.exit.Completed? <==> plan.Some? && !Loop(plan.value).aborted)
      && (plan.Some? ==>
            && |run.calls| >= 2
            && run.calls[1] == PostTournament(NewTournamentUrl(base), TournamentForm(svc.readTournament(TournamentUrl(tourId)).value.tour))
            && run.calls[2..] == Loop(plan.value).calls
            && (run.exit.Completed? ==> run.exit == Completed(plan.value.tourId, Loop(plan.value).entries)))
  {
  }

  /**
   * A completed run read one tournament, created one, created every source
   * round, and read and pushed one PGN per summary entry.
   */
  lemma CompletedRunCounts(token: Option<string>, tourId: Option<string>, base: string, svc: Service)
    requires MirrorSpec(token, tourId, base, svc).exit.Completed?
    ensures var run := MirrorSpec(token, tourId, base, svc);
      var p := PlanOf(token, tourId, base, svc).value;
      && Count(run.calls, TournamentRead) == 1
      && Count(run.calls, TournamentCreate) == 1
      && Count(run.calls, RoundCreate) == |p.rounds|
      && Count(run.calls, PgnRead) == |run.exit.rounds|
      && Count(run.calls, PgnPush) == |run.exit.rounds|
  {
    var run := MirrorSpec(token, tourId, base, svc);
    var p := PlanOf(token, tourId, base, svc).value;
    RunShape(token, tourId, base, svc);
    CallCounts(p);
    var head := run.calls[..2];
    assert run.calls == head + Loop(p).calls;
    assert head == [head[0]] + [head[1]];
    forall k ensures Count(run.calls, k) == Count([head[0]], k) + Count([head[1]], k) + Count(Loop(p).calls, k) {
      CountAppend(head, Loop(p).calls, k);
      CountAppend([head[0]], [head[1]], k);
    }
    forall k ensures Count([head[0]], k) == (if k == TournamentRead then 1 else 0)
                 && Count([head[1]], k) == (if k == TournamentCreate then 1 else 0) {
      CountOne(head[0], k);
      CountOne(head[1], k);
    }
  }

  /**
   * One turn of the mirror's round loop: create round `i` on the destination
   * and, unless the skip policy says otherwise, copy its PGN across. The
   * requests are issued in order and the turn stops at the first failure.
   */
  method CopyRound(p: Plan, i: nat) returns (step: Step)
    requires i < |p.rounds|
    ensures step == RoundStep(p, i)
  {
    var srcRound := p.rounds[i];
    var roundForm := BuildRoundForm(srcRound, p.tiebreaks);
    var roundUrl := NewRoundUrl(p.base, p.tourId);
    var calls := [PostRound(roundUrl, roundForm)];
    var localRound := p.svc.createRound(i, roundUrl, roundForm);
    if localRound.HttpError? {
      return Step(calls, [], true);
    }
    var localRoundId := LocalRoundId(localRound.value);
    if localRoundId.None? {
      return Step(calls, [], false);
    } else if !IsTrue(srcRound.finished) || IsTrue(srcRound.ongoing) {
      return Step(calls, [], false);
    }
    var pgnUrl := PgnUrl(srcRound.id);
    calls := calls + [GetPgn(pgnUrl)];
    var pgn := p.svc.readPgn(pgnUrl);
    if pgn.HttpError? {
      return Step(calls, [], true);
    }
    var pushUrl := PushUrl(p.base, localRoundId.value);
    calls := calls + [PostPgn(pushUrl, pgn.value)];
    var pushRes := p.svc.pushPgn(pushUrl, pgn.value);
    if pushRes.HttpError? {
      return Step(calls, [], true);
    }
    return Step(calls, [Entry(srcRound.id, localRoundId.value, pushRes.value)], false);
  }

  /**
   * The mirror's round loop: take each source round in turn, stopping at
   * the first failed request.
   */
  method RoundLoop(p: Plan) returns (done: Progress)
    ensures done == Loop(p)
  {
    ghost var steps := Steps(p);
    var roundCalls: seq<Call> := [];
    var createdRounds: seq<Entry> := [];
    for i := 0 to |p.rounds|
      invariant Fold(steps[..i]) == Progress(roundCalls, createdRounds, false)
    {
      var step := CopyRound(p, i);
      assert steps[..i + 1][..i] == steps[..i] && steps[i] == step;
      roundCalls := roundCalls + step.calls;
      if step.aborts {
        AbortIsFinal(steps, i + 1);
        assert steps[..|steps|] == steps;
        return Progress(roundCalls, createdRounds, true);
      }
      createdRounds := createdRounds + step.entries;
    }
    assert steps[..|steps|] == steps;
    return Progress(roundCalls, createdRounds, false);
  }

  /**
   * The mirror's main flow: check the token, read and create the
   * tournament, then take each source round in turn, stopping at the first
   * failed request.
   */
  method Mirror(token: Option<string>, tourId: Option<string>, base: string, svc: Service) returns (run: Run)
    ensures run == MirrorSpec(token, tourId, base, svc)
  {
    if !Present(token) {
      return Run([], MissingToken);
    }
    var tourUrl := TournamentUrl(tourId);
    var calls := [GetTournament(tourUrl)];
    var fetched := svc.readTournament(tourUrl);
    if fetched.HttpError? {
      return Run(calls, Failed);
    }
    var tour := fetched.value;
    var form := TournamentForm(tour.tour);
    var newUrl := NewTournamentUrl(base);
    calls := calls + [PostTournament(newUrl, form)];
    var localTour := svc.createTournament(newUrl, form);
    if localTour.HttpError? {
      return Run(calls, Failed);
    }
    if !Present(localTour.value.id) {
      return Run(calls, NoLocalTournament);
    }
    var localTourId := localTour.value.id.value;
    var p := Plan(svc, base, localTourId, tour.tiebreaks, tour.rounds.GetOr([]));
    var done := RoundLoop(p);
    if done.aborted {
      return Run(calls + done.calls, Failed);
    }
    return Run(calls + done.calls, Completed(localTourId, done.entries));
  }
}
