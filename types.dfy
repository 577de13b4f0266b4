/**
 * The data shapes of an Open Hand History record: players, betting rounds
 * (streets) with their actions, pots with the per-player win shares, and the
 * hand-level configuration. All of them are plain values; the builder in
 * module Builder owns one `HandRecord` and replaces it on every append.
 */
module Types {

  datatype Option<+T> = None | Some(value: T)

  /** The `action` label of an action. The labels of the Open Hand History
      format are closed variants; any other label (for instance an upper-case
      "RAISE") is kept as `Unrecognized` and matches none of them.
      `KindOfLabel` reads a label into this type. */
  datatype ActionKind =
    | DealtCards | MucksCards | ShowsCards
    | PostAnte | PostSmallBlind | PostBigBlind | Straddle | PostDead | PostExtraBlind
    | Fold | Check | Bet | Raise | Call
    | Unrecognized(text: string)

  /** The format's own spelling of each named kind. */
  function LabelOf(kind: ActionKind): string
  {
    match kind
    case DealtCards => "Dealt Cards"
    case MucksCards => "Mucks Cards"
    case ShowsCards => "Shows Cards"
    case PostAnte => "Post Ante"
    case PostSmallBlind => "Post SB"
    case PostBigBlind => "Post BB"
    case Straddle => "Straddle"
    case PostDead => "Post Dead"
    case PostExtraBlind => "Post Extra Blind"
    case Fold => "Fold"
    case Check => "Check"
    case Bet => "Bet"
    case Raise => "Raise"
    case Call => "Call"
    case Unrecognized(text) => text
  }

  /** The labels the format names. */
  const FormatLabels: set<string> :=
    {"Dealt Cards", "Mucks Cards", "Shows Cards", "Post Ante", "Post SB", "Post BB",
     "Straddle", "Post Dead", "Post Extra Blind", "Fold", "Check", "Bet", "Raise", "Call"}

  /** `Unrecognized` only ever holds text that is not one of the format's labels,
      so every label has exactly one kind. */
  predicate WellFormedKind(kind: ActionKind)
  {
    kind.Unrecognized? ==> kind.text !in FormatLabels
  }

  /** Reads an `action` label: a format label becomes its named kind (the
      comparison is exact, as `===` is), anything else is `Unrecognized`. */
  function KindOfLabel(text: string): (kind: ActionKind)
    ensures WellFormedKind(kind)
    ensures LabelOf(kind) == text
  {
    if text == "Dealt Cards" then DealtCards
    else if text == "Mucks Cards" then MucksCards
    else if text == "Shows Cards" then ShowsCards
    else if text == "Post Ante" then PostAnte
    else if text == "Post SB" then PostSmallBlind
    else if text == "Post BB" then PostBigBlind
    else if text == "Straddle" then Straddle
    else if text == "Post Dead" then PostDead
    else if text == "Post Extra Blind" then PostExtraBlind
    else if text == "Fold" then Fold
    else if text == "Check" then Check
    else if text == "Bet" then Bet
    else if text == "Raise" then Raise
    else if text == "Call" then Call
    else Unrecognized(text)
  }

  /** A well-formed kind is read back from its own label. */
  lemma KindOfLabelOf(kind: ActionKind)
    requires WellFormedKind(kind)
    ensures KindOfLabel(LabelOf(kind)) == kind
  {
  }

  datatype Action = Action(
    actionNumber: int,
    playerId: int,
    kind: ActionKind,
    amount: Option<int>,
    isAllIn: Option<bool>)

  datatype Player = Player(
    name: string,
    id: int,
    startingStack: int,
    seat: int,
    cards: Option<seq<string>>)

  datatype Round = Round(
    id: int,
    cards: Option<seq<string>>,
    street: string,
    actions: seq<Action>)

  datatype PlayerWin = PlayerWin(playerId: int, winAmount: int)

  datatype Pot = Pot(
    rake: Option<int>,
    number: int,
    amount: int,
    playerWins: seq<PlayerWin>)

  datatype BetLimit = BetLimit(betCap: int, betType: string)

  /** The hand-level fields of the record, fixed when the builder is created. */
  datatype Config = Config(
    specVersion: string,
    internalVersion: string,
    networkName: string,
    siteName: string,
    gameType: string,
    tableName: string,
    tableSize: int,
    gameNumber: string,
    startDateUtc: string,
    currency: string,
    anteAmount: int,
    smallBlindAmount: int,
    bigBlindAmount: int,
    betLimit: BetLimit,
    dealerSeat: int,
    heroPlayerId: int)

  /** The whole record: configuration plus the three append-only lists. */
  datatype HandRecord = HandRecord(
    config: Config,
    players: seq<Player>,
    rounds: seq<Round>,
    pots: seq<Pot>)

  /** The table position the settlement uses for the blind adjustment. */
  datatype Position = Button | SB | BB | Other
}
