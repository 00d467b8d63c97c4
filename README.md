# Broadcast mirror, modelled in Dafny

`broadcast_mirror.py` copies a broadcast tournament from the public Lichess
service to a local Lichess instance. There are four steps:

1. Read the source tournament.
2. Create a local tournament from it, using the tournament form.
3. For every source round, in order, create a local round from the round form.
4. For a round that has finished, read its PGN games from the source and push
   them into the local round.

The run ends with a summary: the local tournament id and one entry per pushed
round.

The project models the decision and translation logic of that script. What it
covers:

- **`Source`** (source.dfy): the records read from the source service.
  Scalar keys read with `.get` are `Option`s. A missing `tour` or `info`
  block, or a missing `customScoring` table, is read as empty, as the
  script's `{}` defaults make it behave. It also holds the truthiness tests
  the script applies and the round status the two flags stand for.
- **`Urls`** (urls.dfy): the five request URLs. The destination URLs use
  Python's `rstrip('/')` of the local base.
- **`Forms`** (forms.dfy): the two creation forms as maps from field to value.
  - A field is a datatype value. `FieldName` renders it as the key the script
    writes (`"info.fideTc"`, `"customScoring.white.win"`, …), and distinct
    fields get distinct keys.
  - The tournament form is a function.
  - The round form is a specification function. `BuildRoundForm` is the
    imperative builder that fills the custom-scoring cells in the script's
    nested loop.
- **`Trace`** (trace.dfy): the requests a run issues. It also holds a generic
  round loop, a fold over per-round steps that stops at the first failing
  step, with its counting, ordering and summary lemmas.
- **`Mirror`** (mirror.dfy): the orchestrator.
  - The remote services form an oracle (`Service`): each request is answered
    by a function of the request. Round creation is also told the round's
    position in the source list, which is not part of the recorded request,
    so that identical creation forms can get different local ids. A failed request (error status, or a reply
    that is not JSON) is `HttpError`, and it stops the run, as the script's
    uncaught `raise_for_status` does.
  - `CopyRound`, `RoundLoop` and `Mirror` are the imperative loop body, loop
    and main flow. Each is proved equal to a specification function: `Fate`,
    `RoundCalls` and `RoundStep` for one round, `Loop` for the loop,
    `MirrorSpec` for the run.
  - The lemmas state the skip policy, the request counts, the creation order
    and the contents of the summary.

The model follows the code as written, including three details a reader may not expect:

- The tiebreaks are read from the top level of the fetched record. The code
  reads `tour.get("tiebreaks")` on the whole response, not on its `tour` block.
- A missing source round id is still used to build the PGN URL. The f-string
  renders it as `None` (`PyStr`).
- A missing tournament id is used the same way when building the
  tournament-read URL.

## Model

The table lists the members whose contracts state properties of the source.
A specification function with no contract of its own has no row; the lemmas
and methods about it cite its lines instead. These functions are
`Forms.TournamentForm` (lines 47-75), `Forms.RoundForm` (98-112), the URL
functions `Urls.TournamentUrl` (37), `Urls.NewTournamentUrl` (76),
`Urls.PgnUrl` (85), `Urls.NewRoundUrl` (113) and `Urls.PushUrl` (124),
`Trace.Fold` (174-200), `Mirror.Fate` (177-193) and `Mirror.MirrorSpec`
(151-200).

| member | source | states |
|---|---|---|
| `Source.StatusOf` | broadcast_mirror.py:184 | A round is ongoing exactly when `ongoing` is true, finished exactly when `finished` is true and `ongoing` is not, and not started otherwise. `ongoing` takes precedence over `finished`. |
| `Source.ShouldPush` | broadcast_mirror.py:184 | The script's status test lets a round through exactly when its status is finished. An ongoing round, or one that is not finished, is never let through. |
| `Urls.RStrip` | broadcast_mirror.py:76 | `rstrip('/')` returns a prefix of its input that does not end in `/`, and everything it removed is slashes. |
| `Urls.RStripSplits` | broadcast_mirror.py:76 | Stripping is idempotent. The input is its stripped form followed by slashes only. |
| `Urls.RStripIgnoresSlashes` | broadcast_mirror.py:76 | Appending any number of slashes to a string does not change its stripped form. |
| `Urls.NewTournamentUrlShape` | broadcast_mirror.py:76 | The tournament-creation URL is the stripped base, which never ends in `/`, followed by `/broadcast/new`. A base with or without trailing slashes gives the same URL. |
| `Urls.NewRoundUrlShape` | broadcast_mirror.py:113 | The round-creation URL is the stripped base, `/broadcast/`, the local tournament id and `/new`, with the id readable back from its slot. It does not depend on trailing slashes of the base. |
| `Urls.PushUrlShape` | broadcast_mirror.py:124 | The push URL is the stripped base, `/api/broadcast/round/`, the local round id and `/push`, with the id readable back from its slot. It does not depend on trailing slashes of the base. |
| `Urls.TournamentUrlShape` | broadcast_mirror.py:37 | The tournament-read URL is the public base and path followed by the tournament id verbatim. A missing id renders as `None`. |
| `Urls.PgnUrlShape` | broadcast_mirror.py:85 | The PGN-read URL is the public base and path, the round id verbatim, then `.pgn`. A missing id renders as `None`. |
| `Forms.FieldNamesDistinct` | broadcast_mirror.py:60-75 | Distinct form fields are written under distinct keys. This covers the tournament keys here and the round keys at lines 102-112, so the field datatype loses nothing against string keys. |
| `Forms.OrNull` | broadcast_mirror.py:51-58 | An `info` value is forwarded as itself when present and as `None` exactly when absent. |
| `Forms.TournamentFormFixedFields` | broadcast_mirror.py:47-75 | Whatever the input: `visibility` is `"public"`, and `showScores` and `showRatingDiffs` are `"true"`. `teamTable` is `"true"` exactly when the source flag is true and `"false"` otherwise. The name defaults to `"Broadcast"` and the description to `""`; present values are forwarded. |
| `Forms.InfoForwarded` | broadcast_mirror.py:50-71 | Each of the eight `info.*` fields holds its source value, or `None` when that value is absent. |
| `Forms.InfoRoundTrip` | broadcast_mirror.py:50-71 | Reading the eight `info.*` fields back from the tournament form gives the source `info` block. |
| `Forms.Cell` | broadcast_mirror.py:112 | A custom-scoring cell is the source score when the table has that colour and that result, and `None` exactly when it lacks either. |
| `Forms.RoundFormFields` | broadcast_mirror.py:100-112 | The round form always carries `name`, `syncSource`, `rated` and `tiebreaks[]`. It carries the custom-scoring keys exactly when the source table is non-empty, and no other key. |
| `Forms.RoundFormFixedFields` | broadcast_mirror.py:98-107 | `syncSource` is `"push"`. `rated` is `"false"` exactly when the source says not rated, and `"true"` otherwise. The name defaults to `"Round"`. The tournament's tiebreaks are forwarded unchanged, defaulting to the empty list. |
| `Forms.RoundFormScoring` | broadcast_mirror.py:108-112 | With a non-empty table, each of the four white/black × win/draw keys is present and holds that table cell (or `None`). |
| `Forms.FilledIsRoundForm` | broadcast_mirror.py:108-112 | With a non-empty table, writing the fixed fields and then the four cells in loop order gives the round form. |
| `Forms.BaseIsRoundForm` | broadcast_mirror.py:102-108 | With an empty table, the fixed fields alone are the round form. |
| `Forms.BuildRoundForm` | broadcast_mirror.py:98-112 | The imperative builder writes the fixed fields and then fills the cells in the nested colour/result loop. It returns exactly the round form. |
| `Trace.AbortIsFinal` | broadcast_mirror.py:174-193 | Once a round's request has failed, the later rounds add no request and no summary entry. |
| `Trace.FoldCounts` | broadcast_mirror.py:174-200 | For any loop over shaped rounds: one creation per round looked at, one push per PGN read and one summary entry per push. The exception is the read or push whose failure stopped the run. Without a failure, every round is created, and reads = pushes = entries. |
| `Trace.FoldPosted` | broadcast_mirror.py:174-179 | The creation requests of the loop are the rounds' own creation requests, in round order. They cover all rounds when nothing failed. |
| `Trace.FoldEntries` | broadcast_mirror.py:194-200 | Without a failure, the summary holds one entry per round that added one, in round order, and each entry is the one that round produced. |
| `Trace.ContributorsExact` | broadcast_mirror.py:194-200 | The rounds that add a summary entry are listed exactly once each, in increasing order. |
| `Mirror.LocalRoundId` | broadcast_mirror.py:180-181 | The local round id is the `round.id` of the reply when usable, else the reply's top-level `id` when usable, else nothing. A returned id is never empty. |
| `Mirror.RoundCallsPolicy` | broadcast_mirror.py:177-193 | A round's creation request comes first. The PGN read follows exactly when the round got a usable id and is finished and not ongoing. The push follows exactly when that read succeeded; it goes to the local round and carries the PGN text unchanged. |
| `Mirror.SkipPolicy` | broadcast_mirror.py:180-186 | The PGN is fetched exactly when the round got a usable id and its status test passes. An ongoing or unfinished round is never fetched. A round adds a summary entry exactly when it was pushed. |
| `Mirror.RoundStepShaped` | broadcast_mirror.py:177-200 | Every round's step is create, then optionally read, then optionally push. A skipped round adds no entry, and a pushed round adds its own entry. |
| `Mirror.CallCounts` | broadcast_mirror.py:174-200 | The loop's request counts: creations ≤ rounds, and entries ≤ pushes ≤ reads ≤ entries + 1. When no request failed, every round is created and reads = pushes = entries. |
| `Mirror.CreatesInSourceOrder` | broadcast_mirror.py:174-179 | The j-th creation request of the loop is the creation of source round j. When nothing failed, there is one for every round. |
| `Mirror.SummaryIsPushedRounds` | broadcast_mirror.py:194-200 | When nothing failed, the summary lists exactly the pushed rounds, in source order. Each entry carries the round's source id, its resolved local id and its push reply. |
| `Mirror.RunShape` | broadcast_mirror.py:151-200 | Without a token nothing is sent. Otherwise the tournament is read first; a failed read ends the run with `Failed` and nothing more is sent. After a successful read the tournament is created second, at the creation URL and from the tournament form, whatever the reply. A creation reply without a usable local tournament id ends the run with `NoLocalTournament` after those two requests, and no round request is sent; that exit occurs exactly in this case. The run completes exactly when the loop was reached and nothing in it failed; the summary then holds the local tournament id and the loop's entries. |
| `Mirror.CompletedRunCounts` | broadcast_mirror.py:158-200 | A completed run read one tournament and created one. It created every source round and read and pushed one PGN per summary entry. |
| `Mirror.CopyRound` | broadcast_mirror.py:175-200 | One turn of the round loop issues exactly the round's requests in order, stops at the first failure, and adds the round's summary entry. |
| `Mirror.RoundLoop` | broadcast_mirror.py:173-200 | The imperative round loop, with its `continue` skips and its stop at a failure, produces the loop's trace and summary. |
| `Mirror.Mirror` | broadcast_mirror.py:151-200 | The imperative main flow issues exactly the requests of `MirrorSpec`, in order, and ends as it does. |

## Left out

- HTTP sessions, headers, content types and the encoding of the bodies sent (broadcast_mirror.py:14-32 and the `session.get`/`post` calls). A request is recorded in the trace as a URL plus its form or PGN text. Its reply comes from the `Service` oracle.
- `raise_for_status` and `.json()` parsing. A failure of either is the abstract `HttpError`, which ends the run with `Failed`. The replies are reduced to the fields the script reads.
- How `requests` encodes a form: it drops `None` values and repeats `tiebreaks[]` once per item. The model keeps the form as the script builds it, with `None` as `Null`.
- Insertion order of the form dictionaries. A form is a map, so the order in which the keys go on the wire is not modelled.
- `time.sleep(1)` between reading and pushing a PGN: pacing only.
- `argparse`, `dotenv` and the environment. The token, the tournament id and the local base are parameters of `Mirror`.
- All console output: the progress lines and the printed summary. The summary is returned as the `Completed` exit instead. So are the two `sys.exit(1)` error exits, which become `MissingToken` and `NoLocalTournament`.
- JSON beyond presence and absence. An explicit `null`, or a value of an unexpected type, is not modelled. The status flags are `Option<bool>`, ids are `Option<string>` with the empty string counting as absent, scores are `real`, and PGN text and push replies are uninterpreted values.
- Concurrency and timing: the script is sequential and the model is too.
