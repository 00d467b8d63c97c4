/**
 * The requests a mirror run issues and the round loop that strings them
 * together. Each source round contributes one step: the requests issued for
 * it, the summary entry it adds (if any), and whether it stops the run. The
 * loop appends steps in source order until one of them stops the run.
 */
module Trace {
  import opened Wrappers
  import opened Forms

  /** One request issued by the run. */
  datatype Call =
    | GetTournament(url: string)
    | PostTournament(url: string, form: Form)
    | PostRound(url: string, form: Form)
    | GetPgn(url: string)
    | PostPgn(url: string, pgn: string)

  datatype Kind = TournamentRead | TournamentCreate | RoundCreate | PgnRead | PgnPush

  function KindOf(c: Call): Kind
  {
    match c
    case GetTournament(_) => TournamentRead
    case PostTournament(_, _) => TournamentCreate
    case PostRound(_, _) => RoundCreate
    case GetPgn(_) => PgnRead
    case PostPgn(_, _) => PgnPush
  }

  /** The decoded push reply, kept uninterpreted. */
  datatype PushResult = PushResult(body: string)

  /** One entry of the run summary. */
  datatype Entry = Entry(sourceRoundId: Option<string>, localRoundId: string, pushResult: PushResult)

  /** What one source round contributes to the run. */
  datatype Step = Step(calls: seq<Call>, entries: seq<Entry>, aborts: bool)

  /**
   * The shape every round's step has: a creation request first, then
   * possibly the PGN read, then possibly the push. A round that does not
   * stop the run is either skipped (creation only, no entry) or pushed (all
   * three requests, one entry); a round that stops the run adds no entry.
   */
  predicate Shaped(s: Step)
  {
    && 1 <= |s.calls| <= 3
    && s.calls[0].PostRound?
    && (|s.calls| > 1 ==> s.calls[1].GetPgn?)
    && (|s.calls| > 2 ==> s.calls[2].PostPgn?)
    && (s.aborts ==> s.entries == [])
    && (!s.aborts ==> (|s.calls| == 1 && s.entries == []) || (|s.calls| == 3 && |s.entries| == 1))
  }

  /** The trace and summary the loop has built, and whether a request failed. */
  datatype Progress = Progress(calls: seq<Call>, entries: seq<Entry>, aborted: bool)

  /** The loop run over `steps`: each step is taken until one stops the run. */
  function Fold(steps: seq<Step>): Progress
  {
    if steps == [] then Progress([], [], false)
    else
      var before := Fold(steps[..|steps| - 1]);
      var last := steps[|steps| - 1];
      if before.aborted then before
      else Progress(before.calls + last.calls, before.entries + last.entries, last.aborts)
  }

  /** Once a step has stopped the run, the later steps add nothing. */
  lemma {:induction false} AbortIsFinal(steps: seq<Step>, k: nat)
    requires k <= |steps|
    requires Fold(steps[..k]).aborted
    ensures Fold(steps) == Fold(steps[..k])
  {
    if k < |steps| {
      var init := steps[..|steps| - 1];
      assert init[..k] == steps[..k];
      AbortIsFinal(init, k);
    } else {
      assert steps[..k] == steps;
    }
  }

  /** The number of requests of a kind in a trace. */
  function Count(calls: seq<Call>, k: Kind): nat
  {
    if calls == [] then 0
    else Count(calls[..|calls| - 1], k) + (if KindOf(calls[|calls| - 1]) == k then 1 else 0)
  }

  lemma {:induction false} CountAppend(a: seq<Call>, b: seq<Call>, k: Kind)
    ensures Count(a + b, k) == Count(a, k) + Count(b, k)
  {
    if b == [] {
      assert a + b == a;
    } else {
      assert (a + b)[..|a + b| - 1] == a + b[..|b| - 1];
      CountAppend(a, b[..|b| - 1], k);
    }
  }

  lemma CountOne(x: Call, k: Kind)
    ensures Count([x], k) == if KindOf(x) == k then 1 else 0
  {
    assert [x][..0] == [];
  }

  /** The requests of one shaped step, by kind. */
  lemma StepCounts(s: Step)
    requires Shaped(s)
    ensures Count(s.calls, RoundCreate) == 1
    ensures Count(s.calls, PgnRead) == (if |s.calls| > 1 then 1 else 0)
    ensures Count(s.calls, PgnPush) == (if |s.calls| > 2 then 1 else 0)
    ensures Count(s.calls, TournamentRead) == 0 && Count(s.calls, TournamentCreate) == 0
  {
    var c := s.calls;
    forall k ensures Count(c, k) == Count([c[0]], k) + Count(c[1..], k) {
      assert c == [c[0]] + c[1..];
      CountAppend([c[0]], c[1..], k);
    }
    forall k ensures Count(c[1..], k) == (if |c| > 1 && KindOf(c[1]) == k then 1 else 0)
                                        + (if |c| > 2 && KindOf(c[2]) == k then 1 else 0) {
      if |c| == 1 {
        assert c[1..] == [];
      } else if |c| == 2 {
        assert c[1..] == [c[1]];
        CountOne(c[1], k);
      } else {
        assert c[1..] == [c[1]] + [c[2]];
        CountAppend([c[1]], [c[2]], k);
        CountOne(c[1], k);
        CountOne(c[2], k);
      }
    }
    forall k ensures Count([c[0]], k) == if KindOf(c[0]) == k then 1 else 0 {
      CountOne(c[0], k);
    }
  }

  /**
   * Counting the requests: one round creation per step taken; one push per
   * PGN read and one summary entry per push, except that the read or push
   * whose failure stopped the run has no partner.
   */
  lemma {:induction false} FoldCounts(steps: seq<Step>)
    requires forall i :: 0 <= i < |steps| ==> Shaped(steps[i])
    ensures var r := Fold(steps);
      && |r.entries| <= Count(r.calls, PgnPush) <= Count(r.calls, PgnRead) <= |r.entries| + 1
      && Count(r.calls, RoundCreate) <= |steps|
      && Count(r.calls, TournamentRead) == 0 && Count(r.calls, TournamentCreate) == 0
      && (!r.aborted ==>
            Count(r.calls, RoundCreate) == |steps| &&
            Count(r.calls, PgnRead) == Count(r.calls, PgnPush) == |r.entries|)
  {
    if steps != [] {
      var init := steps[..|steps| - 1];
      FoldCounts(init);
      var before := Fold(init);
      if !before.aborted {
        var last := steps[|steps| - 1];
        StepCounts(last);
        forall k ensures Count(before.calls + last.calls, k) == Count(before.calls, k) + Count(last.calls, k) {
          CountAppend(before.calls, last.calls, k);
        }
      }
    }
  }

  /** The round-creation requests of a trace, in order. */
  function Posted(calls: seq<Call>): (posts: seq<Call>)
    ensures forall j :: 0 <= j < |posts| ==> posts[j].PostRound?
  {
    if calls == [] then []
    else Posted(calls[..|calls| - 1]) + (if calls[|calls| - 1].PostRound? then [calls[|calls| - 1]] else [])
  }

  lemma {:induction false} PostedAppend(a: seq<Call>, b: seq<Call>)
    ensures Posted(a + b) == Posted(a) + Posted(b)
  {
    if b == [] {
      assert a + b == a;
    } else {
      assert (a + b)[..|a + b| - 1] == a + b[..|b| - 1];
      PostedAppend(a, b[..|b| - 1]);
    }
  }

  /** A shaped step posts exactly one creation request: its first request. */
  lemma PostedStep(s: Step)
    requires Shaped(s)
    ensures Posted(s.calls) == [s.calls[0]]
  {
    var c := s.calls;
    assert c[..1][..0] == [];
    assert Posted(c[..1]) == [c[0]];
    if |c| > 1 {
      assert c[..2][..1] == c[..1];
      assert Posted(c[..2]) == [c[0]];
    }
    if |c| > 2 {
      assert c[..3][..2] == c[..2];
      assert Posted(c[..3]) == [c[0]];
    }
    assert c[..|c|] == c;
  }

  /**
   * The creation requests of the trace are the steps' first requests, in
   * step order: those of a prefix of the steps, all of them when no step
   * stopped the run.
   */
  lemma {:induction false} FoldPosted(steps: seq<Step>)
    requires forall i :: 0 <= i < |steps| ==> Shaped(steps[i])
    ensures |Posted(Fold(steps).calls)| <= |steps|
    ensures forall j :: 0 <= j < |Posted(Fold(steps).calls)| ==>
      j < |steps| && |steps[j].calls| > 0 && Posted(Fold(steps).calls)[j] == steps[j].calls[0]
    ensures !Fold(steps).aborted ==> |Posted(Fold(steps).calls)| == |steps|
  {
    if steps != [] {
      var init := steps[..|steps| - 1];
      FoldPosted(init);
      var before := Fold(init);
      if !before.aborted {
        var last := steps[|steps| - 1];
        PostedAppend(before.calls, last.calls);
        PostedStep(last);
        assert forall i :: 0 <= i < |init| ==> init[i] == steps[i];
      }
    }
  }

  /** The positions of the steps that add a summary entry, in order. */
  function Contributors(steps: seq<Step>): seq<nat>
  {
    if steps == [] then []
    else
      var init := steps[..|steps| - 1];
      Contributors(init) + (if steps[|steps| - 1].entries != [] then [|steps| - 1] else [])
  }

  /**
   * The contributors are exactly the steps that add an entry, each listed
   * once, in increasing order.
   */
  lemma {:induction false} ContributorsExact(steps: seq<Step>)
    ensures var idx := Contributors(steps);
      && (forall k :: 0 <= k < |idx| ==> idx[k] < |steps| && steps[idx[k]].entries != [])
      && (forall i :: 0 <= i < |steps| && steps[i].entries != [] ==> i in idx)
      && (forall k, l :: 0 <= k < l < |idx| ==> idx[k] < idx[l])
  {
    if steps != [] {
      var init := steps[..|steps| - 1];
      var last := |steps| - 1;
      var before := Contributors(init);
      ContributorsExact(init);
      assert forall i :: 0 <= i < |init| ==> init[i] == steps[i];
      if steps[last].entries != [] {
        assert Contributors(steps) == before + [last];
        assert forall k :: 0 <= k < |before| ==> before[k] < last;
      } else {
        assert Contributors(steps) == before;
      }
    }
  }

  /**
   * When no step stopped the run, the summary holds one entry per
   * contributing step, in step order, each the entry that step produced.
   */
  lemma {:induction false} FoldEntries(steps: seq<Step>)
    requires forall i :: 0 <= i < |steps| ==> Shaped(steps[i])
    ensures var r := Fold(steps); var idx := Contributors(steps);
      !r.aborted ==>
        |r.entries| == |idx| &&
        forall k :: 0 <= k < |idx| ==>
          idx[k] < |steps| && steps[idx[k]].entries != [] && r.entries[k] == steps[idx[k]].entries[0]
  {
    if steps != [] {
      var init := steps[..|steps| - 1];
      FoldEntries(init);
      var before := Fold(init);
      var last := steps[|steps| - 1];
      if !Fold(steps).aborted {
        var idx := Contributors(init);
        var idx2 := Contributors(steps);
        var e := Fold(steps).entries;
        ContributorsExact(init);
        assert !before.aborted && e == before.entries + last.entries;
        assert idx2 == idx + (if last.entries != [] then [|steps| - 1] else []);
        assert Shaped(last) && !last.aborts;
        forall k | 0 <= k < |idx2|
          ensures idx2[k] < |steps| && steps[idx2[k]].entries != [] && e[k] == steps[idx2[k]].entries[0]
        {
          if k < |idx| {
            assert idx2[k] == idx[k] && init[idx[k]] == steps[idx[k]];
            assert e[k] == before.entries[k];
          } else {
            assert idx2[k] == |steps| - 1 && e[k] == last.entries[0];
          }
        }
      }
    }
  }
}
