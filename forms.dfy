/**
 * The two creation forms the mirror posts to the destination service: the
 * tournament form and the round form, as dictionaries from field to value.
 * A field is named on the wire by `FieldName`, which renders the exact key
 * string the mirror writes ("info.fideTc", "customScoring.white.win", ...).
 */
module Forms {
  import opened Wrappers
  import opened Source

  datatype InfoField = FideTc | Format | Tc | Location | Players | Standings | Timezone | Website
  datatype Colour = White | Black
  datatype GameResult = Win | Draw

  /** Every field either form can carry. */
  datatype Field =
    | Name | Description | Visibility | InfoEntry(entry: InfoField) | TeamTable
    | ShowScores | ShowRatingDiffs
    | SyncSource | Rated | Tiebreaks | CustomScoring(colour: Colour, result: GameResult)

  function InfoName(i: InfoField): string
  {
    match i
    case FideTc => "fideTc"
    case Format => "format"
    case Tc => "tc"
    case Location => "location"
    case Players => "players"
    case Standings => "standings"
    case Timezone => "timezone"
    case Website => "website"
  }

  function ColourName(c: Colour): string
  {
    match c
    case White => "white"
    case Black => "black"
  }

  function ResultName(r: GameResult): string
  {
    match r
    case Win => "win"
    case Draw => "draw"
  }

  /** The key string of a field in the posted form. */
  function FieldName(f: Field): string
  {
    match f
    case Name => "name"
    case Description => "description"
    case Visibility => "visibility"
    case InfoEntry(i) => "info." + InfoName(i)
    case TeamTable => "teamTable"
    case ShowScores => "showScores"
    case ShowRatingDiffs => "showRatingDiffs"
    case SyncSource => "syncSource"
    case Rated => "rated"
    case Tiebreaks => "tiebreaks[]"
    case CustomScoring(c, r) => "customScoring." + ColourName(c) + "." + ResultName(r)
  }

  /** Two different `info.*` fields differ after the shared `info.` prefix. */
  lemma InfoKeysDistinct(i: InfoField, j: InfoField)
    requires i != j
    ensures FieldName(InfoEntry(i)) != FieldName(InfoEntry(j))
  {
    assert FieldName(InfoEntry(i))[5..] == InfoName(i);
    assert FieldName(InfoEntry(j))[5..] == InfoName(j);
  }

  /** Two different scoring cells differ in the colour or the result part of the key. */
  lemma ScoringKeysDistinct(c: Colour, r: GameResult, d: Colour, q: GameResult)
    requires (c, r) != (d, q)
    ensures FieldName(CustomScoring(c, r)) != FieldName(CustomScoring(d, q))
  {
    var x, y := FieldName(CustomScoring(c, r)), FieldName(CustomScoring(d, q));
    assert x[14..19] == ColourName(c) && y[14..19] == ColourName(d);
    assert x[20..] == ResultName(r) && y[20..] == ResultName(q);
  }

  /** A key of the `info` or custom-scoring families is no other field's key. */
  lemma FamilyKeysDistinct(a: Field, b: Field)
    requires a.InfoEntry? || a.CustomScoring?
    requires a.InfoEntry? ==> !b.InfoEntry?
    requires a.CustomScoring? ==> !b.CustomScoring?
    ensures FieldName(a) != FieldName(b)
  {
    var x, y := FieldName(a), FieldName(b);
    assert x[0] != y[0];
  }

  /** Distinct fields are posted under distinct keys. */
  lemma FieldNamesDistinct(a: Field, b: Field)
    requires a != b
    ensures FieldName(a) != FieldName(b)
  {
    if a.InfoEntry? && b.InfoEntry? {
      InfoKeysDistinct(a.entry, b.entry);
    } else if a.CustomScoring? && b.CustomScoring? {
      ScoringKeysDistinct(a.colour, a.result, b.colour, b.result);
    } else if a.InfoEntry? || a.CustomScoring? {
      FamilyKeysDistinct(a, b);
    } else if b.InfoEntry? || b.CustomScoring? {
      FamilyKeysDistinct(b, a);
    }
  }

  /** A form value: a text, Python's `None`, a repeated text field, or a score. */
  datatype FormValue = Text(text: string) | Null | Texts(items: seq<string>) | Score(points: real)

  type Form = map<Field, FormValue>

  /** An optional text forwarded as itself, or as `None` when absent. */
  function OrNull(o: Option<string>): (v: FormValue)
    ensures o.None? <==> v == Null
    ensures o.Some? ==> v == Text(o.value)
  {
    match o
    case Some(s) => Text(s)
    case None => Null
  }

  /** A form value read back as an optional text. */
  function FromForm(v: FormValue): Option<string>
  {
    match v
    case Text(s) => Some(s)
    case _ => None
  }

  // ---------------------------------------------------------------------
  // Tournament form (broadcast_mirror.py:47-75)
  // ---------------------------------------------------------------------

  const TournamentFields: set<Field> :=
    {Name, Description, Visibility, TeamTable, ShowScores, ShowRatingDiffs,
     InfoEntry(FideTc), InfoEntry(Format), InfoEntry(Tc), InfoEntry(Location),
     InfoEntry(Players), InfoEntry(Standings), InfoEntry(Timezone), InfoEntry(Website)}

  /** The source value of one `info` field. */
  function InfoValue(info: Info, i: InfoField): Option<string>
  {
    match i
    case FideTc => info.fideTc
    case Format => info.format
    case Tc => info.tc
    case Location => info.location
    case Players => info.players
    case Standings => info.standings
    case Timezone => info.timezone
    case Website => info.website
  }

  /** The value the tournament form gives each of its fields. */
  function TournamentValue(t: TourInfo, k: Field): FormValue
    requires k in TournamentFields
  {
    match k
    case Name => Text(t.name.GetOr("Broadcast"))
    case Description => Text(t.description.GetOr(""))
    case Visibility => Text("public")
    case InfoEntry(i) => OrNull(InfoValue(t.info, i))
    case TeamTable => Text(if IsTrue(t.teamTable) then "true" else "false")
    case ShowScores => Text("true")
    case ShowRatingDiffs => Text("true")
    case _ => assert false; Null
  }

  /** The tournament creation form built from the source record's `tour` block. */
  function TournamentForm(t: TourInfo): Form
  {
    map k | k in TournamentFields :: TournamentValue(t, k)
  }

  /**
   * The tournament form is public, shows scores and rating differences, asks
   * for a team table exactly when the source has one, and defaults the name
   * to "Broadcast" and the description to the empty text.
   */
  lemma TournamentFormFixedFields(t: TourInfo)
    ensures var f := TournamentForm(t);
      && f[Visibility] == Text("public")
      && f[ShowScores] == Text("true") && f[ShowRatingDiffs] == Text("true")
      && (f[TeamTable] == Text("true") <==> IsTrue(t.teamTable))
      && (f[TeamTable] == Text("false") <==> !IsTrue(t.teamTable))
      && (t.name.None? ==> f[Name] == Text("Broadcast"))
      && (t.name.Some? ==> f[Name] == Text(t.name.value))
      && (t.description.None? ==> f[Description] == Text(""))
      && (t.description.Some? ==> f[Description] == Text(t.description.value))
  {
  }

  /** A field of a posted form read back as an optional text; a missing field reads as absent. */
  function Lookup(f: Form, k: Field): Option<string>
  {
    if k in f then FromForm(f[k]) else None
  }

  /** The `info` block as the destination reads it back from a tournament form. */
  function ReadInfo(f: Form): Info
  {
    Info(Lookup(f, InfoEntry(FideTc)), Lookup(f, InfoEntry(Format)),
         Lookup(f, InfoEntry(Location)), Lookup(f, InfoEntry(Players)),
         Lookup(f, InfoEntry(Tc)), Lookup(f, InfoEntry(Standings)),
         Lookup(f, InfoEntry(Timezone)), Lookup(f, InfoEntry(Website)))
  }

  /** Every `info` field is forwarded under its own name, absent ones as `None`. */
  lemma InfoForwarded(t: TourInfo, i: InfoField)
    ensures TournamentForm(t)[InfoEntry(i)] == OrNull(InfoValue(t.info, i))
  {
  }

  /** Reading the `info` fields back from the form gives the source block. */
  lemma InfoRoundTrip(t: TourInfo)
    ensures ReadInfo(TournamentForm(t)) == t.info
  {
    InfoForwarded(t, FideTc); InfoForwarded(t, Format); InfoForwarded(t, Tc);
    InfoForwarded(t, Location); InfoForwarded(t, Players); InfoForwarded(t, Standings);
    InfoForwarded(t, Timezone); InfoForwarded(t, Website);
  }

  // ---------------------------------------------------------------------
  // Round form (broadcast_mirror.py:98-112)
  // ---------------------------------------------------------------------

  /** The iteration order of the mirror's nested custom-scoring loop. */
  const Colours: seq<Colour> := [White, Black]
  const Results: seq<GameResult> := [Win, Draw]

  const RoundBaseFields: set<Field> := {Name, SyncSource, Rated, Tiebreaks}
  const ScoringFields: set<Field> :=
    {CustomScoring(White, Win), CustomScoring(White, Draw),
     CustomScoring(Black, Win), CustomScoring(Black, Draw)}

  /** The score the table gives one cell, or `None` when it lacks the colour or the result. */
  function Cell(cs: Scoring, c: Colour, r: GameResult): (v: FormValue)
    ensures v == Null <==> !(ColourName(c) in cs && ResultName(r) in cs[ColourName(c)])
    ensures ColourName(c) in cs && ResultName(r) in cs[ColourName(c)] ==>
      v == Score(cs[ColourName(c)][ResultName(r)])
  {
    var colour := ColourName(c);
    var result := ResultName(r);
    if colour in cs && result in cs[colour] then Score(cs[colour][result]) else Null
  }

  /** The fields of the round form for a custom-scoring table. */
  function RoundFields(cs: Scoring): set<Field>
  {
    RoundBaseFields + (if |cs| > 0 then ScoringFields else {})
  }

  /** The value the round form gives each of its fields. */
  function RoundValue(round: SourceRound, tiebreaks: Option<seq<string>>, k: Field): FormValue
    requires k in RoundBaseFields || k.CustomScoring?
  {
    match k
    case Name => Text(round.name.GetOr("Round"))
    case SyncSource => Text("push")
    case Rated => Text(if round.rated.GetOr(true) then "true" else "false")
    case Tiebreaks => Texts(tiebreaks.GetOr([]))
    case CustomScoring(c, r) => Cell(round.customScoring, c, r)
    case _ => assert false; Null
  }

  /**
   * The round creation form: the fixed fields, and the four custom-scoring
   * fields only when the source round carries a non-empty table.
   */
  function RoundForm(round: SourceRound, tiebreaks: Option<seq<string>>): Form
  {
    map k | k in RoundFields(round.customScoring) :: RoundValue(round, tiebreaks, k)
  }

  /** Every custom-scoring field is one of the four the form can carry. */
  lemma ScoringFieldsComplete(k: Field)
    requires k.CustomScoring?
    ensures k in ScoringFields
  {
    match k.colour
    case White => match k.result { case Win => case Draw => }
    case Black => match k.result { case Win => case Draw => }
  }

  /**
   * The round form carries the fixed fields, and the custom-scoring fields
   * exactly when the source table is non-empty; nothing else.
   */
  lemma RoundFormFields(round: SourceRound, tiebreaks: Option<seq<string>>, k: Field)
    ensures k in RoundForm(round, tiebreaks) <==>
      k in RoundBaseFields || (k.CustomScoring? && |round.customScoring| > 0)
  {
    if k.CustomScoring? {
      ScoringFieldsComplete(k);
    }
  }

  /**
   * Whatever the custom-scoring table, the round form asks for push
   * synchronisation, is rated unless the source says otherwise, defaults the
   * name to "Round" and forwards the tournament's tiebreaks, empty by default.
   */
  lemma RoundFormFixedFields(round: SourceRound, tiebreaks: Option<seq<string>>)
    ensures var f := RoundForm(round, tiebreaks);
      && f[SyncSource] == Text("push")
      && (f[Rated] == Text("false") <==> round.rated == Some(false))
      && (f[Rated] == Text("true") <==> round.rated != Some(false))
      && (round.name.None? ==> f[Name] == Text("Round"))
      && (round.name.Some? ==> f[Name] == Text(round.name.value))
      && (tiebreaks.None? ==> f[Tiebreaks] == Texts([]))
      && (tiebreaks.Some? ==> f[Tiebreaks] == Texts(tiebreaks.value))
  {
  }

  /**
   * With a non-empty custom-scoring table, each of the four scoring fields
   * holds the source cell, or `None` when the table lacks that cell.
   */
  lemma RoundFormScoring(round: SourceRound, tiebreaks: Option<seq<string>>, c: Colour, r: GameResult)
    requires |round.customScoring| > 0
    ensures CustomScoring(c, r) in RoundForm(round, tiebreaks)
    ensures RoundForm(round, tiebreaks)[CustomScoring(c, r)] == Cell(round.customScoring, c, r)
  {
    ScoringFieldsComplete(CustomScoring(c, r));
  }

  /** The cells in the order the mirror's nested loop writes them. */
  const LoopOrder: seq<(Colour, GameResult)> := [(White, Win), (White, Draw), (Black, Win), (Black, Draw)]

  lemma LoopOrderAt(i: nat, j: nat)
    requires i < |Colours| && j < |Results|
    ensures 2 * i + j < |LoopOrder| && LoopOrder[2 * i + j] == (Colours[i], Results[j])
  {
  }

  /** The form the nested loop has built from `base` after writing its first `n` cells. */
  ghost function Filled(base: Form, cs: Scoring, n: nat): Form
    requires n <= |LoopOrder|
  {
    if n == 0 then base
    else
      var (c, r) := LoopOrder[n - 1];
      Filled(base, cs, n - 1)[CustomScoring(c, r) := Cell(cs, c, r)]
  }

  /** Two forms with the same fields and the same values are the same form. */
  lemma SameForm(a: Form, b: Form)
    requires forall k :: k in a <==> k in b
    requires forall k :: k in a ==> a[k] == b[k]
    ensures a == b
  {
  }

  /** The fixed fields, as the mirror first writes them. */
  ghost function RoundBase(round: SourceRound, tiebreaks: Option<seq<string>>): Form
  {
    map[
      Name := Text(round.name.GetOr("Round")),
      SyncSource := Text("push"),
      Rated := Text(if round.rated.GetOr(true) then "true" else "false"),
      Tiebreaks := Texts(tiebreaks.GetOr([]))
    ]
  }

  /** The four cells written in loop order. */
  lemma FilledFour(base: Form, cs: Scoring)
    ensures Filled(base, cs, 4) ==
      base[CustomScoring(White, Win) := Cell(cs, White, Win)]
          [CustomScoring(White, Draw) := Cell(cs, White, Draw)]
          [CustomScoring(Black, Win) := Cell(cs, Black, Win)]
          [CustomScoring(Black, Draw) := Cell(cs, Black, Draw)]
  {
    assert Filled(base, cs, 1) == base[CustomScoring(White, Win) := Cell(cs, White, Win)];
    assert Filled(base, cs, 2) == Filled(base, cs, 1)[CustomScoring(White, Draw) := Cell(cs, White, Draw)];
    assert Filled(base, cs, 3) == Filled(base, cs, 2)[CustomScoring(Black, Win) := Cell(cs, Black, Win)];
  }

  /** Each field the loop has written holds the round form's value for it. */
  lemma FilledValue(round: SourceRound, tiebreaks: Option<seq<string>>, k: Field)
    requires k in Filled(RoundBase(round, tiebreaks), round.customScoring, 4)
    ensures k in RoundBaseFields || k.CustomScoring?
    ensures Filled(RoundBase(round, tiebreaks), round.customScoring, 4)[k] == RoundValue(round, tiebreaks, k)
  {
    FilledFour(RoundBase(round, tiebreaks), round.customScoring);
    if k.CustomScoring? {
      match k.colour
      case White => match k.result { case Win => case Draw => }
      case Black => match k.result { case Win => case Draw => }
    }
  }

  /** Writing the fixed fields and then all four cells of a non-empty table gives the round form. */
  lemma FilledIsRoundForm(round: SourceRound, tiebreaks: Option<seq<string>>)
    requires |round.customScoring| > 0
    ensures RoundForm(round, tiebreaks) == Filled(RoundBase(round, tiebreaks), round.customScoring, 4)
  {
    var built := Filled(RoundBase(round, tiebreaks), round.customScoring, 4);
    var target := RoundForm(round, tiebreaks);
    FilledFour(RoundBase(round, tiebreaks), round.customScoring);
    forall k ensures k in built <==> k in target {
      RoundFormFields(round, tiebreaks, k);
      if k.CustomScoring? {
        ScoringFieldsComplete(k);
      }
    }
    forall k | k in built ensures built[k] == target[k] {
      FilledValue(round, tiebreaks, k);
    }
    SameForm(built, target);
  }

  /** Without a custom-scoring table the fixed fields are the whole round form. */
  lemma BaseIsRoundForm(round: SourceRound, tiebreaks: Option<seq<string>>)
    requires |round.customScoring| == 0
    ensures RoundForm(round, tiebreaks) == RoundBase(round, tiebreaks)
  {
    var base := RoundBase(round, tiebreaks);
    var target := RoundForm(round, tiebreaks);
    forall k ensures k in base <==> k in target {
      RoundFormFields(round, tiebreaks, k);
    }
    forall k | k in base ensures base[k] == target[k] {
    }
    SameForm(base, target);
  }

  /**
   * Builds the round form the way the mirror does: the fixed fields first,
   * then the custom-scoring cells filled in place, colour by colour.
   */
  method BuildRoundForm(round: SourceRound, tiebreaks: Option<seq<string>>) returns (form: Form)
    ensures form == RoundForm(round, tiebreaks)
  {
    var name := round.name.GetOr("Round");
    var rated := round.rated.GetOr(true);
    var customScoring := round.customScoring;
    form := map[
      Name := Text(name),
      SyncSource := Text("push"),
      Rated := Text(if rated then "true" else "false"),
      Tiebreaks := Texts(tiebreaks.GetOr([]))
    ];
    ghost var base := form;
    if |customScoring| > 0 {
      for i := 0 to |Colours|
        invariant form == Filled(base, customScoring, 2 * i)
      {
        for j := 0 to |Results|
          invariant form == Filled(base, customScoring, 2 * i + j)
        {
          LoopOrderAt(i, j);
          var key := CustomScoring(Colours[i], Results[j]);
          form := form[key := Cell(customScoring, Colours[i], Results[j])];
        }
      }
    }
    if |customScoring| > 0 {
      FilledIsRoundForm(round, tiebreaks);
    } else {
      BaseIsRoundForm(round, tiebreaks);
    }
  }
}
