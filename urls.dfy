/**
 * The five request URLs. The two source-service URLs hang off the fixed
 * public base; the three destination URLs hang off the operator-supplied
 * local base with its trailing slashes removed (Python's `rstrip('/')`).
 */
module Urls {
  import opened Wrappers

  const LichessBase: string := "https://lichess.org"
  /** The source tournament path. */
  const TournamentPath: string := "/api/broadcast/"
  /** The round path shared by the source PGN read and the destination push. */
  const RoundPath: string := "/api/broadcast/round/"
  /** The destination tournament-creation path. */
  const NewTournamentPath: string := "/broadcast/new"
  /** The destination path under which a tournament's rounds are created. */
  const LocalTournamentPath: string := "/broadcast/"

  /** A string of `k` slashes. */
  function Slashes(k: nat): (s: string)
    ensures |s| == k && forall i :: 0 <= i < k ==> s[i] == '/'
  {
    if k == 0 then "" else Slashes(k - 1) + "/"
  }

  /**
   * Python's right-strip of `/`: the longest prefix of `s` that does not end in `/`,
   * everything after it being slashes.
   */
  function RStrip(s: string): (r: string)
    ensures r <= s
    ensures r == [] || r[|r| - 1] != '/'
    ensures forall i :: |r| <= i < |s| ==> s[i] == '/'
  {
    if |s| > 0 && s[|s| - 1] == '/' then RStrip(s[..|s| - 1]) else s
  }

  /** Python's f-string rendering of an optional string: `None` prints as "None". */
  function PyStr(o: Option<string>): string
  {
    match o
    case Some(s) => s
    case None => "None"
  }

  /** GET of the source tournament (broadcast_mirror.py:37). */
  function TournamentUrl(tourId: Option<string>): string
  {
    LichessBase + TournamentPath + PyStr(tourId)
  }

  /** GET of a source round's games (broadcast_mirror.py:85). */
  function PgnUrl(roundId: Option<string>): string
  {
    LichessBase + RoundPath + PyStr(roundId) + ".pgn"
  }

  /** POST creating the local tournament (broadcast_mirror.py:76). */
  function NewTournamentUrl(base: string): string
  {
    RStrip(base) + NewTournamentPath
  }

  /** POST creating a round under a local tournament (broadcast_mirror.py:113). */
  function NewRoundUrl(base: string, tourId: string): string
  {
    RStrip(base) + LocalTournamentPath + tourId + "/new"
  }

  /** POST pushing PGN text into a local round (broadcast_mirror.py:124). */
  function PushUrl(base: string, roundId: string): string
  {
    RStrip(base) + RoundPath + roundId + "/push"
  }

  /** Stripping is idempotent, and `s` is its stripped form followed by slashes only. */
  lemma {:induction false} RStripSplits(s: string)
    ensures RStrip(RStrip(s)) == RStrip(s)
    ensures s == RStrip(s) + Slashes(|s| - |RStrip(s)|)
  {
    var r := RStrip(s);
    var tail := s[|r|..];
    assert s == r + tail;
    assert tail == Slashes(|s| - |r|);
  }

  /** Appending slashes to a string does not change what `rstrip('/')` returns. */
  lemma {:induction false} RStripIgnoresSlashes(s: string, k: nat)
    ensures RStrip(s + Slashes(k)) == RStrip(s)
  {
    var t := s + Slashes(k);
    if k == 0 {
      assert t == s;
    } else {
      assert t[|t| - 1] == '/';
      assert t[..|t| - 1] == s + Slashes(k - 1);
      RStripIgnoresSlashes(s, k - 1);
    }
  }

  /**
   * The tournament-creation URL is the stripped base followed by the fixed
   * path, so the join never doubles a slash, and it is the same whatever
   * number of trailing slashes the base carries.
   */
  lemma NewTournamentUrlShape(base: string, k: nat)
    ensures NewTournamentUrl(base + Slashes(k)) == NewTournamentUrl(base)
    ensures var b := RStrip(base); var u := NewTournamentUrl(base);
      && base[..|b|] == b && (b == [] || b[|b| - 1] != '/')
      && u[..|b|] == b && u[|b|..] == NewTournamentPath
  {
    RStripIgnoresSlashes(base, k);
  }

  /**
   * The round-creation URL is the stripped base, the fixed path and the
   * local tournament id in its fixed slot; trailing slashes on the base do
   * not change it.
   */
  lemma NewRoundUrlShape(base: string, k: nat, tourId: string)
    ensures NewRoundUrl(base + Slashes(k), tourId) == NewRoundUrl(base, tourId)
    ensures var b := RStrip(base); var u := NewRoundUrl(base, tourId); var n := |b| + |LocalTournamentPath|;
      && u[..|b|] == b && (b == [] || b[|b| - 1] != '/')
      && |u| == n + |tourId| + |"/new"| && u[n..n + |tourId|] == tourId && u[n + |tourId|..] == "/new"
  {
    RStripIgnoresSlashes(base, k);
    var b := RStrip(base);
    assert NewRoundUrl(base, tourId) == b + LocalTournamentPath + tourId + "/new";
  }

  /**
   * The push URL is the stripped base, the fixed path and the local round
   * id in its fixed slot; trailing slashes on the base do not change it.
   */
  lemma PushUrlShape(base: string, k: nat, roundId: string)
    ensures PushUrl(base + Slashes(k), roundId) == PushUrl(base, roundId)
    ensures var b := RStrip(base); var u := PushUrl(base, roundId); var n := |b| + |RoundPath|;
      && u[..|b|] == b && (b == [] || b[|b| - 1] != '/')
      && |u| == n + |roundId| + |"/push"| && u[n..n + |roundId|] == roundId && u[n + |roundId|..] == "/push"
  {
    RStripIgnoresSlashes(base, k);
    var b := RStrip(base);
    assert PushUrl(base, roundId) == b + RoundPath + roundId + "/push";
  }

  /** The tournament-read URL is the public base and path followed by the tournament id verbatim. */
  lemma TournamentUrlShape(tourId: string)
    ensures var u := TournamentUrl(Some(tourId)); var n := |LichessBase + TournamentPath|;
      u[..n] == LichessBase + TournamentPath && u[n..] == tourId
    ensures TournamentUrl(None) == LichessBase + TournamentPath + "None"
  {
  }

  /** The PGN-read URL is the public base and path, the round id verbatim, and ".pgn". */
  lemma PgnUrlShape(roundId: string)
    ensures var u := PgnUrl(Some(roundId)); var n := |LichessBase + RoundPath|;
      && u[..n] == LichessBase + RoundPath && |u| == n + |roundId| + |".pgn"|
      && u[n..n + |roundId|] == roundId && u[n + |roundId|..] == ".pgn"
    ensures PgnUrl(None) == LichessBase + RoundPath + "None.pgn"
  {
  }
}
